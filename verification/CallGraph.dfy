/** The bounded breadth-first search that builds a symbol's call graph. */
module CallGraph {
  import opened Wrappers
  import opened CallDiscovery

  datatype Failure = SymbolNotFound(id: SymbolID)

  datatype Graph = Graph(nodes: map<SymbolID, Symbol>, edges: map<string, Call>, truncated: bool)

  // ------------------------------------------------------------------- the search

  datatype Search = Search(
    nodes: map<SymbolID, Symbol>,
    depth: map<SymbolID, nat>,
    queue: seq<SymbolID>,
    edges: map<string, Call>,
    truncated: bool)

  /** Facts about the search that hold between any two relationships it follows; `near(n)` is what lies within `n` calls. */
  ghost predicate Sound(store: Store, near: nat -> set<SymbolID>, root: SymbolID, maxDepth: nat, maxNodes: int, s: Search) {
    && root in s.depth && s.depth[root] == 0
    && s.nodes.Keys == s.depth.Keys
    && (forall v :: v in s.nodes ==> v in store.symbols && s.nodes[v] == store.symbols[v])
    && (forall v :: v in s.depth ==> v in near(s.depth[v]))
    && (forall v :: v in s.depth && v != root ==> s.depth[v] <= maxDepth)
    && (|s.nodes| <= maxNodes || |s.nodes| == 1)
    && (s.truncated ==> |s.nodes| >= maxNodes
                        && exists v :: v in near(maxDepth) && v !in s.nodes)
    && (forall k :: k in s.edges ==> s.edges[k].id == k && s.edges[k] in store.calls)
  }

  /** The queue is in order of depth, and nothing visited is more than one level below its head. */
  ghost predicate Levels(s: Search, head: nat) {
    && (forall i :: 0 <= i < |s.queue| ==> s.queue[i] in s.depth)
    && (forall i, j :: 0 <= i < j < |s.queue| ==> s.depth[s.queue[i]] <= s.depth[s.queue[j]])
    && (forall i :: 0 <= i < |s.queue| ==> s.depth[s.queue[i]] >= head)
    && (forall v :: v in s.depth ==> s.depth[v] <= head + 1)
    && (forall v :: v in s.depth && v !in s.queue ==> s.depth[v] <= head)
  }

  /** Every symbol already taken off the queue has had all its calls followed. */
  ghost predicate Closed(store: Store, dir: Direction, maxDepth: nat, s: Search) {
    forall v, w :: v in s.depth && v !in s.queue && s.depth[v] < maxDepth && Adjacent(store, dir, v, w) ==>
                     w in s.depth && s.depth[w] <= s.depth[v] + 1
  }

  /** The invariant of the outer loop. */
  ghost predicate Searching(store: Store, dir: Direction, near: nat -> set<SymbolID>, root: SymbolID, maxDepth: nat, maxNodes: int, s: Search) {
    && Sound(store, near, root, maxDepth, maxNodes, s)
    && Distinct(s.queue)
    && (s.queue != [] ==> s.queue[0] in s.depth && Levels(s, s.depth[s.queue[0]]))
    && (!s.truncated ==> Closed(store, dir, maxDepth, s))
  }

  /** `b` is `a` after following some calls: what was visited stays as it was, what is new is queued behind. */
  ghost predicate Extends(a: Search, b: Search) {
    && a.queue <= b.queue
    && (a.truncated ==> b.truncated)
    && a.edges.Keys <= b.edges.Keys
    && (forall v :: v in a.depth ==> v in b.depth && b.depth[v] == a.depth[v])
    && (forall v :: v in b.depth ==> v in a.depth || v in b.queue[|a.queue|..])
    && (forall i :: |a.queue| <= i < |b.queue| ==> b.queue[i] in b.depth && b.queue[i] !in a.depth)
    && Distinct(b.queue[|a.queue|..])
  }

  lemma DistinctConcat(p: seq<SymbolID>, q: seq<SymbolID>)
    requires Distinct(p) && Distinct(q) && forall i, j :: 0 <= i < |p| && 0 <= j < |q| ==> p[i] != q[j]
    ensures Distinct(p + q)
  {
  }

  lemma ExtendsTransitive(a: Search, b: Search, c: Search)
    requires Extends(a, b) && Extends(b, c)
    ensures Extends(a, c)
  {
    var ab, bc := b.queue[|a.queue|..], c.queue[|b.queue|..];
    assert c.queue[|a.queue|..] == ab + bc;
    forall i | |a.queue| <= i < |c.queue| ensures c.queue[i] in c.depth && c.queue[i] !in a.depth {
      if i < |b.queue| { assert c.queue[i] == b.queue[i]; }
    }
    forall i, j | 0 <= i < |ab| && 0 <= j < |bc| ensures ab[i] != bc[j] {
      assert ab[i] == b.queue[|a.queue| + i] && bc[j] == c.queue[|b.queue| + j];
    }
    DistinctConcat(ab, bc);
  }

  /** Follow one call to `next`, which is `level` calls away from the root. */
  function Visit(store: Store, maxNodes: int, s: Search, edge: Call, next: SymbolID, level: nat): Result<Search, Failure> {
    var s := s.(edges := s.edges[edge.id := edge]);
    if next in s.nodes then Ok(if next in s.depth then s else s.(depth := s.depth[next := level], queue := s.queue + [next]))
    else if |s.nodes| >= maxNodes then Ok(s.(truncated := true))
    else if next !in store.symbols then Err(SymbolNotFound(next))
    else if next in s.depth then Ok(s.(nodes := s.nodes[next := store.symbols[next]]))
    else Ok(AddNode(store, s, next, level))
  }

  /** What a search may assume about a call it is about to follow. */
  ghost predicate Followable(store: Store, near: nat -> set<SymbolID>, maxDepth: nat, edge: Call, next: SymbolID, level: nat) {
    edge in store.calls && level < maxDepth && next in near(level + 1) && near(level + 1) <= near(maxDepth)
  }

  lemma RecordKeeps(store: Store, near: nat -> set<SymbolID>, root: SymbolID, maxDepth: nat, maxNodes: int, s: Search, edge: Call)
    requires Sound(store, near, root, maxDepth, maxNodes, s) && edge in store.calls
    ensures Sound(store, near, root, maxDepth, maxNodes, s.(edges := s.edges[edge.id := edge]))
  {
  }

  lemma DropKeeps(store: Store, near: nat -> set<SymbolID>, root: SymbolID, maxDepth: nat, maxNodes: int, s: Search, next: SymbolID)
    requires Sound(store, near, root, maxDepth, maxNodes, s)
    requires next !in s.nodes && |s.nodes| >= maxNodes && next in near(maxDepth)
    ensures Sound(store, near, root, maxDepth, maxNodes, s.(truncated := true))
  {
  }

  function AddNode(store: Store, s: Search, next: SymbolID, level: nat): Search
    requires next in store.symbols
  {
    s.(nodes := s.nodes[next := store.symbols[next]], depth := s.depth[next := level], queue := s.queue + [next])
  }

  lemma AddNodeKeeps(store: Store, near: nat -> set<SymbolID>, root: SymbolID, maxDepth: nat, maxNodes: int, s: Search, next: SymbolID, level: nat)
    requires Sound(store, near, root, maxDepth, maxNodes, s)
    requires next in store.symbols && next !in s.nodes && |s.nodes| < maxNodes
    requires level < maxDepth && next in near(level + 1)
    ensures Sound(store, near, root, maxDepth, maxNodes, AddNode(store, s, next, level + 1))
  {
    var t := AddNode(store, s, next, level + 1);
    assert t.nodes.Keys == s.nodes.Keys + {next};
    assert t.depth.Keys == s.depth.Keys + {next};
    assert |t.nodes| == |s.nodes| + 1;
    assert !s.truncated;
  }

  lemma AddNodeKeepsLevels(s: Search, t: Search, next: SymbolID, level: nat)
    requires Levels(s, level) && next !in s.depth
    requires t.queue == s.queue + [next] && t.depth == s.depth[next := level + 1]
    ensures Levels(t, level)
  {
    assert forall v :: v in s.queue ==> v in t.queue;
    assert next in t.queue;
  }

  lemma AddNodeExtends(s: Search, t: Search, next: SymbolID, level: nat)
    requires next !in s.depth
    requires t.queue == s.queue + [next] && t.depth == s.depth[next := level + 1]
    requires t.truncated == s.truncated && t.edges == s.edges
    ensures Extends(s, t)
  {
    assert t.queue[|s.queue|..] == [next];
  }

  lemma ExtendsSelf(s: Search, t: Search)
    requires t.queue == s.queue && t.depth == s.depth && s.edges.Keys <= t.edges.Keys && (s.truncated ==> t.truncated)
    ensures Extends(s, t)
  {
    assert t.queue[|s.queue|..] == [];
  }

  lemma AddNodeVisits(store: Store, near: nat -> set<SymbolID>, root: SymbolID, maxDepth: nat, maxNodes: int, s: Search, e: Search,
                      next: SymbolID, level: nat)
    requires Sound(store, near, root, maxDepth, maxNodes, e) && Levels(e, level) && Extends(s, e)
    requires next in store.symbols && next !in e.nodes && |e.nodes| < maxNodes && level < maxDepth && next in near(level + 1)
    ensures var t := AddNode(store, e, next, level + 1);
            Sound(store, near, root, maxDepth, maxNodes, t) && Levels(t, level) && Extends(s, t)
  {
    var t := AddNode(store, e, next, level + 1);
    AddNodeKeeps(store, near, root, maxDepth, maxNodes, e, next, level);
    AddNodeKeepsLevels(e, t, next, level);
    AddNodeExtends(e, t, next, level);
    ExtendsTransitive(s, e, t);
  }

  lemma VisitKeeps(store: Store, near: nat -> set<SymbolID>, root: SymbolID, maxDepth: nat, maxNodes: int, s: Search, edge: Call, next: SymbolID, level: nat)
    requires Sound(store, near, root, maxDepth, maxNodes, s) && Levels(s, level)
    requires Followable(store, near, maxDepth, edge, next, level)
    ensures var r := Visit(store, maxNodes, s, edge, next, level + 1);
            if r.Err? then
              r.error.id !in store.symbols && r.error.id in near(maxDepth)
            else
              && Sound(store, near, root, maxDepth, maxNodes, r.value)
              && Levels(r.value, level)
              && Extends(s, r.value)
              && (next in r.value.depth || r.value.truncated)
  {
    var e := s.(edges := s.edges[edge.id := edge]);
    RecordKeeps(store, near, root, maxDepth, maxNodes, s, edge);
    ExtendsSelf(s, e);
    if next !in e.nodes {
      if |e.nodes| >= maxNodes {
        DropKeeps(store, near, root, maxDepth, maxNodes, e, next);
        ExtendsSelf(s, e.(truncated := true));
      } else if next in store.symbols {
        AddNodeVisits(store, near, root, maxDepth, maxNodes, s, e, next, level);
      }
    }
  }

  /** Follow every call of a list, stopping at the first symbol that is missing. */
  function Follow(store: Store, maxNodes: int, s: Search, calls: seq<Call>, callers: bool, level: nat): Result<Search, Failure>
    decreases |calls|
  {
    if calls == [] then Ok(s) else
    match Visit(store, maxNodes, s, calls[0], Target(calls[0], callers), level + 1)
    case Err(e) => Err(e)
    case Ok(t) => Follow(store, maxNodes, t, calls[1..], callers, level)
  }

  lemma {:induction false} FollowKeeps(store: Store, near: nat -> set<SymbolID>, root: SymbolID, maxDepth: nat, maxNodes: int,
                                       s: Search, calls: seq<Call>, callers: bool, level: nat)
    requires Sound(store, near, root, maxDepth, maxNodes, s) && Levels(s, level)
    requires forall c :: c in calls ==> Followable(store, near, maxDepth, c, Target(c, callers), level)
    ensures var r := Follow(store, maxNodes, s, calls, callers, level);
            if r.Err? then
              r.error.id !in store.symbols && r.error.id in near(maxDepth)
            else
              && Sound(store, near, root, maxDepth, maxNodes, r.value)
              && Levels(r.value, level)
              && Extends(s, r.value)
              && (r.value.truncated || forall c :: c in calls ==> Target(c, callers) in r.value.depth)
    decreases |calls|
  {
    if calls == [] {
      ExtendsSelf(s, s);
    } else {
      var c := calls[0];
      var first := Visit(store, maxNodes, s, c, Target(c, callers), level + 1);
      VisitKeeps(store, near, root, maxDepth, maxNodes, s, c, Target(c, callers), level);
      if first.Ok? {
        FollowKeeps(store, near, root, maxDepth, maxNodes, first.value, calls[1..], callers, level);
        var r := Follow(store, maxNodes, s, calls, callers, level);
        if r.Ok? {
          ExtendsTransitive(s, first.value, r.value);
          assert forall d :: d in calls ==> d == c || d in calls[1..];
        }
      }
    }
  }

  ghost function Names(calls: seq<Call>): set<string> {
    if calls == [] then {} else {calls[0].id} + Names(calls[1..])
  }

  lemma {:induction false} NamesAre(calls: seq<Call>, k: string)
    ensures k in Names(calls) <==> exists i :: 0 <= i < |calls| && calls[i].id == k
    decreases |calls|
  {
    if calls != [] {
      NamesAre(calls[1..], k);
      if i :| 0 <= i < |calls| && calls[i].id == k {
        if i > 0 { assert calls[1..][i - 1].id == k; }
      }
      if i :| 0 <= i < |calls[1..]| && calls[1..][i].id == k { assert calls[i + 1].id == k; }
    }
  }

  lemma VisitRecords(store: Store, maxNodes: int, s: Search, edge: Call, next: SymbolID, level: nat)
    requires Visit(store, maxNodes, s, edge, next, level).Ok?
    ensures Visit(store, maxNodes, s, edge, next, level).value.edges.Keys == s.edges.Keys + {edge.id}
  {
  }

  lemma FollowUnfolds(store: Store, maxNodes: int, s: Search, calls: seq<Call>, callers: bool, level: nat) returns (first: Search)
    requires calls != [] && Follow(store, maxNodes, s, calls, callers, level).Ok?
    ensures Follow(store, maxNodes, first, calls[1..], callers, level) == Follow(store, maxNodes, s, calls, callers, level)
    ensures first.edges.Keys == s.edges.Keys + {calls[0].id}
  {
    first := Visit(store, maxNodes, s, calls[0], Target(calls[0], callers), level + 1).value;
    VisitRecords(store, maxNodes, s, calls[0], Target(calls[0], callers), level + 1);
  }

  /** Every call followed is remembered as an edge. */
  lemma {:induction false} FollowEdges(store: Store, maxNodes: int, s: Search, calls: seq<Call>, callers: bool, level: nat)
    requires Follow(store, maxNodes, s, calls, callers, level).Ok?
    ensures Follow(store, maxNodes, s, calls, callers, level).value.edges.Keys == s.edges.Keys + Names(calls)
    decreases |calls|
  {
    if calls != [] {
      var first := FollowUnfolds(store, maxNodes, s, calls, callers, level);
      FollowEdges(store, maxNodes, first, calls[1..], callers, level);
    }
  }

  lemma {:induction false} FollowAppend(store: Store, maxNodes: int, s: Search, calls: seq<Call>, c: Call, callers: bool, level: nat)
    ensures Follow(store, maxNodes, s, calls + [c], callers, level) ==
            match Follow(store, maxNodes, s, calls, callers, level)
            case Err(e) => Err(e)
            case Ok(t) => Visit(store, maxNodes, t, c, Target(c, callers), level + 1)
    decreases |calls|
  {
    if calls == [] {
      assert calls + [c] == [c];
    } else {
      assert (calls + [c])[1..] == calls[1..] + [c];
      var first := Visit(store, maxNodes, s, calls[0], Target(calls[0], callers), level + 1);
      if first.Ok? { FollowAppend(store, maxNodes, first.value, calls[1..], c, callers, level); }
    }
  }

  lemma {:induction false} FollowStops(store: Store, maxNodes: int, s: Search, calls: seq<Call>, n: nat, callers: bool, level: nat)
    requires n <= |calls| && Follow(store, maxNodes, s, calls[..n], callers, level).Err?
    ensures Follow(store, maxNodes, s, calls, callers, level) == Follow(store, maxNodes, s, calls[..n], callers, level)
    decreases |calls| - n
  {
    if n < |calls| {
      assert calls[..n + 1] == calls[..n] + [calls[n]];
      FollowAppend(store, maxNodes, s, calls[..n], calls[n], callers, level);
      FollowStops(store, maxNodes, s, calls, n + 1, callers, level);
    } else {
      assert calls[..n] == calls;
    }
  }

  /** One relationship list of one symbol: remember every edge, and visit every symbol not seen before. */
  method FollowAll(store: Store, maxNodes: int, before: Search, calls: seq<Call>, callers: bool, depth: nat)
    returns (r: Result<Search, Failure>)
    ensures r == Follow(store, maxNodes, before, calls, callers, depth)
  {
    var s := before;
    for i := 0 to |calls|
      invariant Follow(store, maxNodes, before, calls[..i], callers, depth) == Ok(s)
    {
      var edge := calls[i];
      var next := if callers then edge.from else edge.to;
      assert calls[..i + 1] == calls[..i] + [edge];
      FollowAppend(store, maxNodes, before, calls[..i], edge, callers, depth);
      s := s.(edges := s.edges[edge.id := edge]);
      if next !in s.nodes {
        if |s.nodes| >= maxNodes {
          s := s.(truncated := true);
          continue;
        }
        if next !in store.symbols {
          FollowStops(store, maxNodes, before, calls, i + 1, callers, depth);
          return Err(SymbolNotFound(next));
        }
        s := s.(nodes := s.nodes[next := store.symbols[next]]);
      }
      if next !in s.depth {
        s := s.(depth := s.depth[next := depth + 1], queue := s.queue + [next]);
      }
    }
    assert calls[..|calls|] == calls;
    return Ok(s);
  }

  /** All that the search needs to know of `Within`. */
  ghost predicate Nested(store: Store, dir: Direction, near: nat -> set<SymbolID>, maxDepth: nat) {
    && (forall n: nat, v, w :: v in near(n) && Adjacent(store, dir, v, w) ==> w in near(n + 1))
    && (forall n: nat :: n <= maxDepth ==> near(n) <= near(maxDepth))
  }

  lemma NearIsNested(store: Store, dir: Direction, root: SymbolID, maxDepth: nat)
    ensures Nested(store, dir, Near(store, dir, root), maxDepth)
  {
    forall n: nat, v, w | v in Near(store, dir, root)(n) && Adjacent(store, dir, v, w)
      ensures w in Near(store, dir, root)(n + 1)
    {
      WithinStep(store, dir, root, n, v, w);
    }
    forall n: nat | n <= maxDepth ensures Near(store, dir, root)(n) <= Near(store, dir, root)(maxDepth) {
      WithinGrows(store, dir, root, n, maxDepth);
    }
  }

  /** The calls of `v` that the direction asks for lead to neighbours one level further out. */
  lemma CallsAreFollowable(store: Store, dir: Direction, near: nat -> set<SymbolID>, maxDepth: nat, v: SymbolID, level: nat, c: Call)
    requires Nested(store, dir, near, maxDepth) && v in near(level) && level < maxDepth && c in store.calls
    ensures dir != Callers && c.from == v ==> Followable(store, near, maxDepth, c, c.to, level)
    ensures dir != Callees && c.to == v ==> Followable(store, near, maxDepth, c, c.from, level)
  {
    var i :| 0 <= i < |store.calls| && store.calls[i] == c;
    if dir != Callers && c.from == v { assert Follows(dir, store.calls[i], v, c.to) && Adjacent(store, dir, v, c.to); }
    if dir != Callees && c.to == v { assert Follows(dir, store.calls[i], v, c.from) && Adjacent(store, dir, v, c.from); }
    assert near(level + 1) <= near(maxDepth);
  }

  /** Following both lists of a symbol sees every neighbour. */
  lemma ListsCoverNeighbours(store: Store, dir: Direction, v: SymbolID, s: Search)
    requires dir != Callers ==> forall c :: c in Outgoing(store.calls, v) ==> c.to in s.depth
    requires dir != Callees ==> forall c :: c in Incoming(store.calls, v) ==> c.from in s.depth
    ensures AllCallsSeen(store, dir, v, s)
  {
    forall w | Adjacent(store, dir, v, w) ensures w in s.depth {
      var i :| 0 <= i < |store.calls| && Follows(dir, store.calls[i], v, w);
      assert store.calls[i] in store.calls;
    }
  }

  function Popped(s: Search): Search
    requires s.queue != []
  {
    s.(queue := s.queue[1..])
  }

  /** Take the head of the queue and follow its calls, callees first. */
  function FollowOutgoing(store: Store, dir: Direction, maxNodes: int, s: Search, v: SymbolID, level: nat): Result<Search, Failure> {
    if dir == Callers then Ok(s) else Follow(store, maxNodes, s, Outgoing(store.calls, v), false, level)
  }

  function FollowIncoming(store: Store, dir: Direction, maxNodes: int, s: Search, v: SymbolID, level: nat): Result<Search, Failure> {
    if dir == Callees then Ok(s) else Follow(store, maxNodes, s, Incoming(store.calls, v), true, level)
  }

  function FollowBoth(store: Store, dir: Direction, maxNodes: int, s: Search, v: SymbolID, level: nat): Result<Search, Failure> {
    match FollowOutgoing(store, dir, maxNodes, s, v, level)
    case Err(e) => Err(e)
    case Ok(first) => FollowIncoming(store, dir, maxNodes, first, v, level)
  }

  /** The head of the queue is taken off, and its calls are followed, unless it lies at the depth limit. */
  function Expand(store: Store, dir: Direction, maxDepth: nat, maxNodes: int, s: Search): Result<Search, Failure>
    requires s.queue != [] && s.queue[0] in s.depth
  {
    var v, level := s.queue[0], s.depth[s.queue[0]];
    if level >= maxDepth then Ok(Popped(s)) else FollowBoth(store, dir, maxNodes, Popped(s), v, level)
  }

  lemma PoppedKeeps(store: Store, dir: Direction, near: nat -> set<SymbolID>, root: SymbolID, maxDepth: nat, maxNodes: int, s: Search)
    requires Searching(store, dir, near, root, maxDepth, maxNodes, s) && s.queue != []
    ensures Sound(store, near, root, maxDepth, maxNodes, Popped(s)) && Levels(Popped(s), s.depth[s.queue[0]])
    ensures s.queue[0] !in Popped(s).queue
  {
    assert forall v :: v in s.queue ==> v == s.queue[0] || v in s.queue[1..];
  }

  ghost predicate AllCallsSeen(store: Store, dir: Direction, v: SymbolID, s: Search) {
    forall w :: Adjacent(store, dir, v, w) ==> w in s.depth
  }

  /** What holds after some of the head's calls have been followed. */
  ghost predicate Underway(store: Store, near: nat -> set<SymbolID>, root: SymbolID, maxDepth: nat, maxNodes: int, p: Search, s: Search, level: nat) {
    Sound(store, near, root, maxDepth, maxNodes, s) && Levels(s, level) && Extends(p, s)
  }

  lemma ListFollows(store: Store, near: nat -> set<SymbolID>, root: SymbolID, maxDepth: nat, maxNodes: int,
                    p: Search, s: Search, calls: seq<Call>, callers: bool, level: nat)
    requires Underway(store, near, root, maxDepth, maxNodes, p, s, level)
    requires forall c :: c in calls ==> Followable(store, near, maxDepth, c, Target(c, callers), level)
    ensures var r := Follow(store, maxNodes, s, calls, callers, level);
            if r.Err? then
              r.error.id !in store.symbols && r.error.id in near(maxDepth)
            else
              && Underway(store, near, root, maxDepth, maxNodes, p, r.value, level)
              && Extends(s, r.value)
              && (r.value.truncated || forall c :: c in calls ==> Target(c, callers) in r.value.depth)
  {
    FollowKeeps(store, near, root, maxDepth, maxNodes, s, calls, callers, level);
    var r := Follow(store, maxNodes, s, calls, callers, level);
    if r.Ok? { ExtendsTransitive(p, s, r.value); }
  }

  /** What is known of a step that follows calls of `v`; `seen` says what has been followed. */
  ghost predicate Followed(store: Store, near: nat -> set<SymbolID>, root: SymbolID, maxDepth: nat, maxNodes: int,
                           p: Search, r: Result<Search, Failure>, level: nat) {
    if r.Err? then r.error.id !in store.symbols && r.error.id in near(maxDepth)
    else Underway(store, near, root, maxDepth, maxNodes, p, r.value, level)
  }

  lemma OutgoingFollows(store: Store, dir: Direction, near: nat -> set<SymbolID>, root: SymbolID, maxDepth: nat, maxNodes: int,
                        p: Search, s: Search, v: SymbolID, level: nat)
    requires Nested(store, dir, near, maxDepth) && v in near(level) && level < maxDepth
    requires Underway(store, near, root, maxDepth, maxNodes, p, s, level)
    ensures var r := FollowOutgoing(store, dir, maxNodes, s, v, level);
            && Followed(store, near, root, maxDepth, maxNodes, p, r, level)
            && (r.Ok? && !r.value.truncated && dir != Callers ==> forall c :: c in Outgoing(store.calls, v) ==> c.to in r.value.depth)
  {
    if dir != Callers {
      forall c | c in Outgoing(store.calls, v) ensures Followable(store, near, maxDepth, c, Target(c, false), level) {
        CallsAreFollowable(store, dir, near, maxDepth, v, level, c);
      }
      ListFollows(store, near, root, maxDepth, maxNodes, p, s, Outgoing(store.calls, v), false, level);
    }
  }

  lemma IncomingFollows(store: Store, dir: Direction, near: nat -> set<SymbolID>, root: SymbolID, maxDepth: nat, maxNodes: int,
                        p: Search, s: Search, v: SymbolID, level: nat)
    requires Nested(store, dir, near, maxDepth) && v in near(level) && level < maxDepth
    requires Underway(store, near, root, maxDepth, maxNodes, p, s, level)
    ensures var r := FollowIncoming(store, dir, maxNodes, s, v, level);
            && Followed(store, near, root, maxDepth, maxNodes, p, r, level)
            && (r.Ok? ==> forall w :: w in s.depth ==> w in r.value.depth)
            && (r.Ok? && s.truncated ==> r.value.truncated)
            && (r.Ok? && !r.value.truncated && dir != Callees ==> forall c :: c in Incoming(store.calls, v) ==> c.from in r.value.depth)
  {
    if dir != Callees {
      forall c | c in Incoming(store.calls, v) ensures Followable(store, near, maxDepth, c, Target(c, true), level) {
        CallsAreFollowable(store, dir, near, maxDepth, v, level, c);
      }
      ListFollows(store, near, root, maxDepth, maxNodes, p, s, Incoming(store.calls, v), true, level);
    }
  }

  lemma BothFollow(store: Store, dir: Direction, near: nat -> set<SymbolID>, root: SymbolID, maxDepth: nat, maxNodes: int,
                   p: Search, v: SymbolID, level: nat)
    requires Nested(store, dir, near, maxDepth) && v in near(level) && level < maxDepth
    requires Underway(store, near, root, maxDepth, maxNodes, p, p, level)
    ensures var r := FollowBoth(store, dir, maxNodes, p, v, level);
            && Followed(store, near, root, maxDepth, maxNodes, p, r, level)
            && (r.Ok? && !r.value.truncated ==> AllCallsSeen(store, dir, v, r.value))
  {
    var first := FollowOutgoing(store, dir, maxNodes, p, v, level);
    OutgoingFollows(store, dir, near, root, maxDepth, maxNodes, p, p, v, level);
    if first.Ok? {
      var r := FollowIncoming(store, dir, maxNodes, first.value, v, level);
      IncomingFollows(store, dir, near, root, maxDepth, maxNodes, p, first.value, v, level);
      if r.Ok? && !r.value.truncated {
        ListsCoverNeighbours(store, dir, v, r.value);
      }
    }
  }

  lemma ExpandFollows(store: Store, dir: Direction, near: nat -> set<SymbolID>, root: SymbolID, maxDepth: nat, maxNodes: int, s: Search)
    requires Nested(store, dir, near, maxDepth) && Searching(store, dir, near, root, maxDepth, maxNodes, s) && s.queue != []
    requires s.depth[s.queue[0]] < maxDepth
    ensures var r := Expand(store, dir, maxDepth, maxNodes, s);
            && Followed(store, near, root, maxDepth, maxNodes, Popped(s), r, s.depth[s.queue[0]])
            && (r.Ok? && !r.value.truncated ==> AllCallsSeen(store, dir, s.queue[0], r.value))
  {
    PoppedKeeps(store, dir, near, root, maxDepth, maxNodes, s);
    ExtendsSelf(Popped(s), Popped(s));
    BothFollow(store, dir, near, root, maxDepth, maxNodes, Popped(s), s.queue[0], s.depth[s.queue[0]]);
  }

  lemma ExpandKeeps(store: Store, dir: Direction, near: nat -> set<SymbolID>, root: SymbolID, maxDepth: nat, maxNodes: int, s: Search)
    requires Nested(store, dir, near, maxDepth) && Searching(store, dir, near, root, maxDepth, maxNodes, s) && s.queue != []
    ensures var r := Expand(store, dir, maxDepth, maxNodes, s);
            if r.Err? then
              r.error.id !in store.symbols && r.error.id in near(maxDepth)
            else
              && Searching(store, dir, near, root, maxDepth, maxNodes, r.value)
              && Extends(Popped(s), r.value)
  {
    var v, level := s.queue[0], s.depth[s.queue[0]];
    var p := Popped(s);
    PoppedKeeps(store, dir, near, root, maxDepth, maxNodes, s);
    var r := Expand(store, dir, maxDepth, maxNodes, s);
    if level < maxDepth {
      ExpandFollows(store, dir, near, root, maxDepth, maxNodes, s);
    } else {
      ExtendsSelf(p, p);
    }
    if r.Ok? {
      SettlesKeeps(store, dir, maxDepth, s, r.value);
    }
  }

  lemma SettlesDistinct(s: Search, t: Search)
    requires s.queue != [] && Distinct(s.queue) && Extends(Popped(s), t)
    requires forall i :: 0 <= i < |s.queue| ==> s.queue[i] in s.depth
    ensures Distinct(t.queue)
  {
    var p := Popped(s);
    forall i, j | 0 <= i < j < |t.queue| ensures t.queue[i] != t.queue[j] {
      if i >= |p.queue| {
        assert t.queue[i] == t.queue[|p.queue|..][i - |p.queue|] && t.queue[j] == t.queue[|p.queue|..][j - |p.queue|];
      } else {
        assert t.queue[i] == p.queue[i] == s.queue[i + 1];
        if j < |p.queue| { assert t.queue[j] == p.queue[j] == s.queue[j + 1]; }
      }
    }
  }

  lemma SettledBefore(s: Search, t: Search, v: SymbolID)
    requires s.queue != [] && Extends(Popped(s), t) && v in t.depth && v !in t.queue && v != s.queue[0]
    ensures v in s.depth && v !in s.queue && t.depth[v] == s.depth[v]
  {
    var p, tail := Popped(s), t.queue[|s.queue| - 1..];
    forall i | 0 <= i < |tail| ensures tail[i] != v { assert tail[i] == t.queue[|p.queue| + i]; }
    forall i | 0 <= i < |s.queue| ensures s.queue[i] != v {
      if i > 0 { assert s.queue[i] == p.queue[i - 1] == t.queue[i - 1]; }
    }
  }

  /** Once the head's calls are followed, the loop invariant holds one level further or on the same level. */
  lemma SettlesKeeps(store: Store, dir: Direction, maxDepth: nat, s: Search, t: Search)
    requires s.queue != [] && s.queue[0] in s.depth && Distinct(s.queue)
    requires (forall i :: 0 <= i < |s.queue| ==> s.queue[i] in s.depth)
    requires Extends(Popped(s), t) && Levels(t, s.depth[s.queue[0]])
    requires !s.truncated ==> Closed(store, dir, maxDepth, s)
    requires t.truncated || s.depth[s.queue[0]] >= maxDepth || AllCallsSeen(store, dir, s.queue[0], t)
    ensures Distinct(t.queue)
    ensures t.queue != [] ==> t.queue[0] in t.depth && Levels(t, t.depth[t.queue[0]])
    ensures !t.truncated ==> Closed(store, dir, maxDepth, t)
  {
    SettlesDistinct(s, t);
    if !t.truncated {
      forall v, w | v in t.depth && v !in t.queue && t.depth[v] < maxDepth && Adjacent(store, dir, v, w)
        ensures w in t.depth && t.depth[w] <= t.depth[v] + 1
      {
        if v != s.queue[0] { SettledBefore(s, t, v); }
      }
    }
  }

  // ------------------------------------------------------------------------ edges

  /** `v` has been taken off the queue and its calls followed. */
  predicate Done(maxDepth: nat, s: Search, v: SymbolID) {
    v in s.depth && v !in s.queue && s.depth[v] < maxDepth
  }

  predicate Touches(dir: Direction, maxDepth: nat, s: Search, c: Call) {
    (dir != Callers && Done(maxDepth, s, c.from)) || (dir != Callees && Done(maxDepth, s, c.to))
  }

  /** The edges remembered are those of the calls that touch an expanded symbol. */
  ghost predicate EdgesExact(store: Store, dir: Direction, maxDepth: nat, s: Search) {
    forall k :: k in s.edges <==> exists i :: 0 <= i < |store.calls| && store.calls[i].id == k && Touches(dir, maxDepth, s, store.calls[i])
  }

  lemma OutgoingRecords(store: Store, dir: Direction, maxNodes: int, s: Search, v: SymbolID, level: nat)
    requires FollowOutgoing(store, dir, maxNodes, s, v, level).Ok?
    ensures FollowOutgoing(store, dir, maxNodes, s, v, level).value.edges.Keys
            == s.edges.Keys + (if dir != Callers then Names(Outgoing(store.calls, v)) else {})
  {
    if dir != Callers { FollowEdges(store, maxNodes, s, Outgoing(store.calls, v), false, level); }
  }

  lemma IncomingRecords(store: Store, dir: Direction, maxNodes: int, s: Search, v: SymbolID, level: nat)
    requires FollowIncoming(store, dir, maxNodes, s, v, level).Ok?
    ensures FollowIncoming(store, dir, maxNodes, s, v, level).value.edges.Keys
            == s.edges.Keys + (if dir != Callees then Names(Incoming(store.calls, v)) else {})
  {
    if dir != Callees { FollowEdges(store, maxNodes, s, Incoming(store.calls, v), true, level); }
  }

  lemma ExpandRecords(store: Store, dir: Direction, maxDepth: nat, maxNodes: int, s: Search)
    requires s.queue != [] && s.queue[0] in s.depth && Expand(store, dir, maxDepth, maxNodes, s).Ok?
    requires s.depth[s.queue[0]] < maxDepth
    ensures var t := Expand(store, dir, maxDepth, maxNodes, s).value;
            t.edges.Keys == s.edges.Keys + (if dir != Callers then Names(Outgoing(store.calls, s.queue[0])) else {})
                                         + (if dir != Callees then Names(Incoming(store.calls, s.queue[0])) else {})
  {
    var v, level := s.queue[0], s.depth[s.queue[0]];
    OutgoingRecords(store, dir, maxNodes, Popped(s), v, level);
    IncomingRecords(store, dir, maxNodes, FollowOutgoing(store, dir, maxNodes, Popped(s), v, level).value, v, level);
  }

  lemma ExpandSettles(maxDepth: nat, s: Search, t: Search, v: SymbolID)
    requires s.queue != [] && s.queue[0] in s.depth && Distinct(s.queue) && Extends(Popped(s), t)
    requires forall i :: 0 <= i < |s.queue| ==> s.queue[i] in s.depth
    ensures Done(maxDepth, t, v) <==> Done(maxDepth, s, v) || (v == s.queue[0] && s.depth[v] < maxDepth)
  {
    var p := Popped(s);
    assert t.queue == p.queue + t.queue[|p.queue|..];
    assert s.queue == [s.queue[0]] + p.queue;
    if v in t.queue[|p.queue|..] {
      var i :| 0 <= i < |t.queue[|p.queue|..]| && t.queue[|p.queue|..][i] == v;
      assert t.queue[|p.queue| + i] == v;
    }
  }

  lemma NamesOf(store: Store, v: SymbolID, k: string)
    ensures k in Names(Outgoing(store.calls, v)) <==> exists i :: 0 <= i < |store.calls| && store.calls[i].id == k && store.calls[i].from == v
    ensures k in Names(Incoming(store.calls, v)) <==> exists i :: 0 <= i < |store.calls| && store.calls[i].id == k && store.calls[i].to == v
  {
    var outs, ins := Outgoing(store.calls, v), Incoming(store.calls, v);
    NamesAre(outs, k);
    NamesAre(ins, k);
    if i :| 0 <= i < |store.calls| && store.calls[i].id == k && store.calls[i].from == v {
      assert store.calls[i] in outs;
    }
    if i :| 0 <= i < |store.calls| && store.calls[i].id == k && store.calls[i].to == v {
      assert store.calls[i] in ins;
    }
    if i :| 0 <= i < |outs| && outs[i].id == k { assert outs[i] in store.calls; }
    if i :| 0 <= i < |ins| && ins[i].id == k { assert ins[i] in store.calls; }
  }

  /** After a turn a call touches an expanded symbol if it did before, or if it leaves the head. */
  lemma TouchesNext(dir: Direction, maxDepth: nat, s: Search, t: Search, c: Call)
    requires s.queue != [] && s.queue[0] in s.depth && Distinct(s.queue) && Extends(Popped(s), t)
    requires forall i :: 0 <= i < |s.queue| ==> s.queue[i] in s.depth
    ensures var v := s.queue[0];
            Touches(dir, maxDepth, t, c)
            <==> Touches(dir, maxDepth, s, c)
                 || (s.depth[v] < maxDepth && ((dir != Callers && c.from == v) || (dir != Callees && c.to == v)))
  {
    ExpandSettles(maxDepth, s, t, c.from);
    ExpandSettles(maxDepth, s, t, c.to);
  }

  lemma ExpandKeepsEdges(store: Store, dir: Direction, near: nat -> set<SymbolID>, root: SymbolID, maxDepth: nat, maxNodes: int, s: Search)
    requires Nested(store, dir, near, maxDepth) && Searching(store, dir, near, root, maxDepth, maxNodes, s) && s.queue != []
    requires EdgesExact(store, dir, maxDepth, s)
    requires Expand(store, dir, maxDepth, maxNodes, s).Ok?
    ensures EdgesExact(store, dir, maxDepth, Expand(store, dir, maxDepth, maxNodes, s).value)
  {
    var t := Expand(store, dir, maxDepth, maxNodes, s).value;
    ExpandKeeps(store, dir, near, root, maxDepth, maxNodes, s);
    if s.depth[s.queue[0]] < maxDepth { ExpandRecords(store, dir, maxDepth, maxNodes, s); }
    EdgesNext(store, dir, maxDepth, s, t);
  }

  lemma EdgesNext(store: Store, dir: Direction, maxDepth: nat, s: Search, t: Search)
    requires s.queue != [] && s.queue[0] in s.depth && Distinct(s.queue) && Extends(Popped(s), t)
    requires forall i :: 0 <= i < |s.queue| ==> s.queue[i] in s.depth
    requires EdgesExact(store, dir, maxDepth, s)
    requires var v := s.queue[0];
             t.edges.Keys == if s.depth[v] < maxDepth then
                               s.edges.Keys + (if dir != Callers then Names(Outgoing(store.calls, v)) else {})
                                            + (if dir != Callees then Names(Incoming(store.calls, v)) else {})
                             else s.edges.Keys
    ensures EdgesExact(store, dir, maxDepth, t)
  {
    forall i | 0 <= i < |store.calls|
      ensures var v := s.queue[0];
              Touches(dir, maxDepth, t, store.calls[i])
              <==> Touches(dir, maxDepth, s, store.calls[i])
                   || (s.depth[v] < maxDepth && ((dir != Callers && store.calls[i].from == v) || (dir != Callees && store.calls[i].to == v)))
    {
      TouchesNext(dir, maxDepth, s, t, store.calls[i]);
    }
    forall k
      ensures k in t.edges <==> exists i :: 0 <= i < |store.calls| && store.calls[i].id == k && Touches(dir, maxDepth, t, store.calls[i])
    {
      NamesOf(store, s.queue[0], k);
    }
  }

  // ---------------------------------------------------------- the order of discovery

  /** How many symbols the search has room for; the root is never left out. */
  function Room(maxNodes: int): nat {
    if maxNodes < 1 then 1 else maxNodes
  }

  /** The symbols visited are those of `found`. */
  ghost predicate Visited(store: Store, s: Search, found: seq<SymbolID>) {
    && found != [] && Distinct(found) && s.nodes.Keys == s.depth.Keys
    && (forall v :: v in found <==> v in s.depth) && forall v :: v in s.nodes ==> v in store.symbols
  }

  lemma {:induction false} DistinctCount(q: seq<SymbolID>, keys: set<SymbolID>)
    requires Distinct(q) && forall v :: v in q <==> v in keys
    ensures |q| == |keys|
    decreases |q|
  {
    if q == [] {
      assert keys == {};
    } else {
      assert forall v :: v in q <==> v == q[0] || v in q[1..];
      DistinctCount(q[1..], keys - {q[0]});
    }
  }

  /** From `s` to `t` the symbols of `b` that are not in `a` have been added, at depth `level`. */
  ghost predicate Adds(store: Store, s: Search, t: Search, a: seq<SymbolID>, b: seq<SymbolID>, level: nat) {
    && Visited(store, t, b) && a <= b && t.queue == s.queue + b[|a|..]
    && (forall v :: v in a ==> v in s.depth && v in t.depth && t.depth[v] == s.depth[v])
    && forall i :: |a| <= i < |b| ==> b[i] in t.depth && t.depth[b[i]] == level
  }

  lemma AddsNothing(store: Store, s: Search, t: Search, a: seq<SymbolID>, level: nat)
    requires Visited(store, s, a) && t.queue == s.queue && t.depth == s.depth && t.nodes == s.nodes
    ensures Adds(store, s, t, a, a, level)
  {
    assert s.queue + a[|a|..] == s.queue;
  }

  lemma AddsMore(store: Store, s: Search, t: Search, u: Search, a: seq<SymbolID>, b: seq<SymbolID>, c: seq<SymbolID>, level: nat)
    requires Visited(store, s, a) && Adds(store, s, t, a, b, level) && Adds(store, t, u, b, c, level)
    ensures Adds(store, s, u, a, c, level)
  {
    assert c[|a|..] == b[|a|..] + c[|b|..];
    forall i | |a| <= i < |c| ensures c[i] in u.depth && u.depth[c[i]] == level {
      if i < |b| { assert c[i] == b[i] && b[i] in b; }
    }
    forall v | v in a ensures v in u.depth && u.depth[v] == s.depth[v] {
      var i :| 0 <= i < |a| && a[i] == v;
      assert b[i] == v && v in b;
    }
  }

  lemma AddsOne(store: Store, s: Search, t: Search, a: seq<SymbolID>, next: SymbolID, level: nat)
    requires Visited(store, s, a) && next !in a && next in store.symbols
    requires t.nodes == s.nodes[next := store.symbols[next]] && t.depth == s.depth[next := level] && t.queue == s.queue + [next]
    ensures Adds(store, s, t, a, a + [next], level)
  {
    assert (a + [next])[|a|..] == [next];
  }

  /** The first symbol of `list` that is missing. */
  ghost predicate FirstMissing(store: Store, list: seq<SymbolID>, id: SymbolID) {
    id !in store.symbols && exists k :: 0 <= k < |list| && list[k] == id && forall i :: 0 <= i < k ==> list[i] in store.symbols
  }

  lemma StillFirstMissing(store: Store, a: seq<SymbolID>, b: seq<SymbolID>, id: SymbolID)
    requires FirstMissing(store, a, id) && a <= b
    ensures FirstMissing(store, b, id)
  {
    var k :| 0 <= k < |a| && a[k] == id && forall i :: 0 <= i < k ==> a[i] in store.symbols;
    assert b[k] == id && forall i :: 0 <= i < k ==> b[i] == a[i];
  }

  lemma FirstOfGrows(a: seq<SymbolID>, b: seq<SymbolID>, n: nat)
    requires a <= b
    ensures FirstOf(a, n) <= FirstOf(b, n)
  {
  }

  lemma MetOne(found: seq<SymbolID>, next: SymbolID)
    ensures Met(found, [next]) == if next in found then found else found + [next]
  {
    assert [next][..0] == [] && Met(found, []) == found;
  }

  lemma VisitNothing(store: Store, maxNodes: int, s: Search, edge: Call, next: SymbolID, level: nat, a: seq<SymbolID>)
    requires Visited(store, s, a) && |s.nodes| == |a| && (|a| >= Room(maxNodes) || next in a)
    ensures var r := Visit(store, maxNodes, s, edge, next, level);
            r.Ok? && Adds(store, s, r.value, a, a, level)
  {
    var r := Visit(store, maxNodes, s, edge, next, level);
    AddsNothing(store, s, r.value, a, level);
  }

  lemma VisitOne(store: Store, maxNodes: int, s: Search, edge: Call, next: SymbolID, level: nat, a: seq<SymbolID>)
    requires Visited(store, s, a) && |s.nodes| == |a| < Room(maxNodes) && next !in a
    ensures var r := Visit(store, maxNodes, s, edge, next, level);
            if r.Err? then r.error.id == next && FirstMissing(store, a + [next], next) else Adds(store, s, r.value, a, a + [next], level)
  {
    var r := Visit(store, maxNodes, s, edge, next, level);
    if r.Ok? {
      AddsOne(store, s, r.value, a, next, level);
    } else {
      assert (a + [next])[|a|] == next;
      forall i | 0 <= i < |a| ensures (a + [next])[i] in store.symbols { assert a[i] in a; }
    }
  }

  lemma VisitedCount(store: Store, s: Search, a: seq<SymbolID>)
    requires Visited(store, s, a)
    ensures |s.nodes| == |a|
  {
    DistinctCount(a, s.nodes.Keys);
  }

  /** Visiting a symbol is meeting it, as long as there is room. */
  lemma VisitMeets(store: Store, maxNodes: int, s: Search, edge: Call, next: SymbolID, level: nat, met: seq<SymbolID>)
    requires Visited(store, s, FirstOf(met, Room(maxNodes))) && Distinct(met)
    ensures var a, b := FirstOf(met, Room(maxNodes)), FirstOf(Met(met, [next]), Room(maxNodes));
            var r := Visit(store, maxNodes, s, edge, next, level);
            if r.Err? then r.error.id == next && FirstMissing(store, b, next) else Adds(store, s, r.value, a, b, level)
  {
    var n := Room(maxNodes);
    var a := FirstOf(met, n);
    MetOne(met, next);
    VisitedCount(store, s, a);
    if |a| >= n || next in a {
      assert FirstOf(Met(met, [next]), n) == a;
      VisitNothing(store, maxNodes, s, edge, next, level, a);
    } else {
      assert a == met && FirstOf(Met(met, [next]), n) == a + [next];
      VisitOne(store, maxNodes, s, edge, next, level, a);
    }
  }

  lemma TargetsApart(calls: seq<Call>, callers: bool)
    requires calls != []
    ensures Targets(calls, callers) == [Target(calls[0], callers)] + Targets(calls[1..], callers)
  {
  }

  lemma {:induction false} FollowMeets(store: Store, maxNodes: int, s: Search, calls: seq<Call>, callers: bool, level: nat, met: seq<SymbolID>)
    requires Visited(store, s, FirstOf(met, Room(maxNodes))) && Distinct(met)
    ensures var a, b := FirstOf(met, Room(maxNodes)), FirstOf(Met(met, Targets(calls, callers)), Room(maxNodes));
            var r := Follow(store, maxNodes, s, calls, callers, level);
            if r.Err? then FirstMissing(store, b, r.error.id) else Adds(store, s, r.value, a, b, level + 1)
    decreases |calls|
  {
    var n := Room(maxNodes);
    if calls == [] {
      assert Met(met, Targets(calls, callers)) == met;
      AddsNothing(store, s, s, FirstOf(met, n), level + 1);
    } else {
      var next := Target(calls[0], callers);
      var more := Met(met, [next]);
      TargetsApart(calls, callers);
      MetConcat(met, [next], Targets(calls[1..], callers));
      MetIs(met, [next]);
      MetIs(more, Targets(calls[1..], callers));
      FirstOfGrows(more, Met(more, Targets(calls[1..], callers)), n);
      VisitMeets(store, maxNodes, s, calls[0], next, level + 1, met);
      FollowRest(store, maxNodes, s, calls, callers, level, met, more);
    }
  }

  lemma FollowRest(store: Store, maxNodes: int, s: Search, calls: seq<Call>, callers: bool, level: nat, met: seq<SymbolID>, more: seq<SymbolID>)
    requires calls != [] && Visited(store, s, FirstOf(met, Room(maxNodes))) && Distinct(more)
    requires var r := Visit(store, maxNodes, s, calls[0], Target(calls[0], callers), level + 1);
             if r.Err? then FirstMissing(store, FirstOf(more, Room(maxNodes)), r.error.id)
             else Adds(store, s, r.value, FirstOf(met, Room(maxNodes)), FirstOf(more, Room(maxNodes)), level + 1)
    requires FirstOf(more, Room(maxNodes)) <= FirstOf(Met(more, Targets(calls[1..], callers)), Room(maxNodes))
    ensures var a, c := FirstOf(met, Room(maxNodes)), FirstOf(Met(more, Targets(calls[1..], callers)), Room(maxNodes));
            var r := Follow(store, maxNodes, s, calls, callers, level);
            if r.Err? then FirstMissing(store, c, r.error.id) else Adds(store, s, r.value, a, c, level + 1)
    decreases |calls|, 0
  {
    var n := Room(maxNodes);
    var a, b, c := FirstOf(met, n), FirstOf(more, n), FirstOf(Met(more, Targets(calls[1..], callers)), n);
    var first := Visit(store, maxNodes, s, calls[0], Target(calls[0], callers), level + 1);
    if first.Err? {
      StillFirstMissing(store, b, c, first.error.id);
    } else {
      FollowMeets(store, maxNodes, first.value, calls[1..], callers, level, more);
      var r := Follow(store, maxNodes, first.value, calls[1..], callers, level);
      if r.Ok? { AddsMore(store, s, first.value, r.value, a, b, c, level + 1); }
    }
  }

  lemma OutgoingMeets(store: Store, dir: Direction, maxNodes: int, s: Search, v: SymbolID, level: nat, met: seq<SymbolID>)
    requires Visited(store, s, FirstOf(met, Room(maxNodes))) && Distinct(met)
    ensures var list := if dir != Callers then Targets(Outgoing(store.calls, v), false) else [];
            var a, b := FirstOf(met, Room(maxNodes)), FirstOf(Met(met, list), Room(maxNodes));
            var r := FollowOutgoing(store, dir, maxNodes, s, v, level);
            if r.Err? then FirstMissing(store, b, r.error.id) else Adds(store, s, r.value, a, b, level + 1)
  {
    if dir != Callers {
      FollowMeets(store, maxNodes, s, Outgoing(store.calls, v), false, level, met);
    } else {
      AddsNothing(store, s, s, FirstOf(met, Room(maxNodes)), level + 1);
    }
  }

  lemma IncomingMeets(store: Store, dir: Direction, maxNodes: int, s: Search, v: SymbolID, level: nat, met: seq<SymbolID>)
    requires Visited(store, s, FirstOf(met, Room(maxNodes))) && Distinct(met)
    ensures var list := if dir != Callees then Targets(Incoming(store.calls, v), true) else [];
            var a, b := FirstOf(met, Room(maxNodes)), FirstOf(Met(met, list), Room(maxNodes));
            var r := FollowIncoming(store, dir, maxNodes, s, v, level);
            if r.Err? then FirstMissing(store, b, r.error.id) else Adds(store, s, r.value, a, b, level + 1)
  {
    if dir != Callees {
      FollowMeets(store, maxNodes, s, Incoming(store.calls, v), true, level, met);
    } else {
      AddsNothing(store, s, s, FirstOf(met, Room(maxNodes)), level + 1);
    }
  }

  /** Following all calls of a symbol is meeting its neighbours in order. */
  lemma BothMeet(store: Store, dir: Direction, maxNodes: int, s: Search, v: SymbolID, level: nat, met: seq<SymbolID>)
    requires Visited(store, s, FirstOf(met, Room(maxNodes))) && Distinct(met)
    ensures var a, b := FirstOf(met, Room(maxNodes)), FirstOf(Met(met, Neighbours(store, dir, v)), Room(maxNodes));
            var r := FollowBoth(store, dir, maxNodes, s, v, level);
            if r.Err? then FirstMissing(store, b, r.error.id) else Adds(store, s, r.value, a, b, level + 1)
  {
    var n := Room(maxNodes);
    var out := if dir != Callers then Targets(Outgoing(store.calls, v), false) else [];
    var back := if dir != Callees then Targets(Incoming(store.calls, v), true) else [];
    var more := Met(met, out);
    MetConcat(met, out, back);
    MetIs(met, out);
    MetIs(more, back);
    FirstOfGrows(more, Met(more, back), n);
    var first := FollowOutgoing(store, dir, maxNodes, s, v, level);
    OutgoingMeets(store, dir, maxNodes, s, v, level, met);
    if first.Err? {
      StillFirstMissing(store, FirstOf(more, n), FirstOf(Met(more, back), n), first.error.id);
    } else {
      IncomingMeets(store, dir, maxNodes, first.value, v, level, more);
      var r := FollowIncoming(store, dir, maxNodes, first.value, v, level);
      if r.Ok? {
        AddsMore(store, s, first.value, r.value, FirstOf(met, n), FirstOf(more, n), FirstOf(Met(more, back), n), level + 1);
      }
    }
  }

  /** What is to be known of the levels of discovery. */
  ghost predicate AreLevels(store: Store, dir: Direction, root: SymbolID, f: nat -> seq<SymbolID>) {
    f(0) == [root] && forall k: nat :: f(k + 1) == Asked(store, dir, root, f(k)) && f(k) <= f(k + 1)
  }

  lemma DiscoveredNext(store: Store, dir: Direction, root: SymbolID, k: nat)
    ensures Discovered(store, dir, root)(k + 1) == Asked(store, dir, root, Discovered(store, dir, root)(k))
  {
  }

  lemma DiscoveredAreLevels(store: Store, dir: Direction, root: SymbolID)
    ensures AreLevels(store, dir, root, Discovered(store, dir, root))
  {
    var f := Discovered(store, dir, root);
    DiscoveredGrows(store, dir, root);
    forall k: nat ensures f(k + 1) == Asked(store, dir, root, f(k)) && f(k) <= f(k + 1) { DiscoveredNext(store, dir, root, k); }
  }

  /** Of the symbols taken off the queue, those that lie before the depth limit. */
  ghost function Inner(f: nat -> seq<SymbolID>, maxDepth: nat, asked: seq<SymbolID>): seq<SymbolID> {
    if maxDepth == 0 then [] else FirstOf(asked, |f(maxDepth - 1)|)
  }

  /** The depth of a symbol is the level at which it is discovered. */
  ghost predicate DepthsAre(f: nat -> seq<SymbolID>, maxDepth: nat, depth: map<SymbolID, nat>, found: seq<SymbolID>) {
    forall i, n: nat :: 0 <= i < |found| && n <= maxDepth ==> found[i] in depth && (depth[found[i]] <= n <==> i < |f(n)|)
  }

  /** The symbols of `found` are visited: the beginning of the order of discovery, as far as `reach` goes. */
  ghost predicate FoundSo(store: Store, f: nat -> seq<SymbolID>, maxDepth: nat, maxNodes: int, s: Search, found: seq<SymbolID>, reach: seq<SymbolID>) {
    Visited(store, s, found) && found <= f(maxDepth) && found == FirstOf(reach, Room(maxNodes)) && DepthsAre(f, maxDepth, s.depth, found)
  }

  /** `asked` has been taken off the queue, and what is found stands in the queue behind it. */
  ghost predicate Finding(store: Store, dir: Direction, root: SymbolID, f: nat -> seq<SymbolID>, maxDepth: nat, maxNodes: int,
                          s: Search, asked: seq<SymbolID>) {
    FoundSo(store, f, maxDepth, maxNodes, s, asked + s.queue, Asked(store, dir, root, Inner(f, maxDepth, asked)))
  }

  lemma SameFound(store: Store, f: nat -> seq<SymbolID>, maxDepth: nat, maxNodes: int, s: Search, found: seq<SymbolID>, reach: seq<SymbolID>)
    requires FoundSo(store, f, maxDepth, maxNodes, s, found, reach) && s.queue != []
    ensures FoundSo(store, f, maxDepth, maxNodes, Popped(s), found, reach)
  {
  }

  lemma InnerPassed(f: nat -> seq<SymbolID>, maxDepth: nat, asked: seq<SymbolID>, v: SymbolID)
    requires 0 < maxDepth ==> |f(maxDepth - 1)| <= |asked|
    ensures Inner(f, maxDepth, asked + [v]) == Inner(f, maxDepth, asked)
  {
  }

  lemma Regrouped(asked: seq<SymbolID>, queue: seq<SymbolID>)
    requires queue != []
    ensures asked + [queue[0]] + queue[1..] == asked + queue
  {
  }

  lemma SameFinding(store: Store, dir: Direction, root: SymbolID, f: nat -> seq<SymbolID>, maxDepth: nat, maxNodes: int,
                    s: Search, more: seq<SymbolID>, found: seq<SymbolID>, inner: seq<SymbolID>)
    requires found == more + s.queue && inner == Inner(f, maxDepth, more)
    requires FoundSo(store, f, maxDepth, maxNodes, s, found, Asked(store, dir, root, inner))
    ensures Finding(store, dir, root, f, maxDepth, maxNodes, s, more)
  {
  }

  lemma PassedOver(store: Store, dir: Direction, root: SymbolID, f: nat -> seq<SymbolID>, maxDepth: nat, maxNodes: int,
                   s: Search, asked: seq<SymbolID>)
    requires Finding(store, dir, root, f, maxDepth, maxNodes, s, asked) && s.queue != []
    requires s.queue[0] in s.depth && s.depth[s.queue[0]] >= maxDepth
    ensures Finding(store, dir, root, f, maxDepth, maxNodes, Popped(s), asked + [s.queue[0]])
  {
    var v, found, inner := s.queue[0], asked + s.queue, Inner(f, maxDepth, asked);
    HeadDepth(f, maxDepth, s, asked);
    InnerPassed(f, maxDepth, asked, v);
    SameFound(store, f, maxDepth, maxNodes, s, found, Asked(store, dir, root, inner));
    Regrouped(asked, s.queue);
    SameFinding(store, dir, root, f, maxDepth, maxNodes, Popped(s), asked + [v], found, inner);
  }

  lemma HeadDepth(f: nat -> seq<SymbolID>, maxDepth: nat, s: Search, asked: seq<SymbolID>)
    requires s.queue != [] && DepthsAre(f, maxDepth, s.depth, asked + s.queue)
    ensures s.queue[0] in s.depth && forall n: nat :: n <= maxDepth ==> (s.depth[s.queue[0]] <= n <==> |asked| < |f(n)|)
  {
    var found := asked + s.queue;
    assert found[|asked|] == s.queue[0];
    assert |f(0)| >= 0 && found[|asked|] in s.depth;
    forall n: nat | n <= maxDepth ensures s.queue[0] in s.depth && (s.depth[s.queue[0]] <= n <==> |asked| < |f(n)|) {
      assert found[|asked|] in s.depth && (s.depth[found[|asked|]] <= n <==> |asked| < |f(n)|);
    }
  }

  lemma SamePrefix(a: seq<SymbolID>, b: seq<SymbolID>, c: seq<SymbolID>)
    requires a <= c && b <= c && |a| <= |b|
    ensures a <= b
  {
  }

  lemma LevelsGrow(store: Store, dir: Direction, root: SymbolID, f: nat -> seq<SymbolID>, m: nat, n: nat)
    requires AreLevels(store, dir, root, f) && m <= n
    ensures f(m) <= f(n)
  {
    ChainGrows(f, m, n);
  }

  /** Asking one more symbol below the limit leads no further than the next level, and not back to its own. */
  lemma AskedLevel(store: Store, dir: Direction, root: SymbolID, f: nat -> seq<SymbolID>, maxDepth: nat, asked: seq<SymbolID>, n: nat)
    requires AreLevels(store, dir, root, f) && n < maxDepth && asked <= f(maxDepth)
    ensures |asked| <= |f(n)| ==> Asked(store, dir, root, asked) <= f(n + 1)
    ensures |f(n)| <= |asked| ==> f(n + 1) <= Asked(store, dir, root, asked)
  {
    LevelsGrow(store, dir, root, f, n, maxDepth);
    if |asked| <= |f(n)| {
      SamePrefix(asked, f(n), f(maxDepth));
      AskedGrows(store, dir, root, asked, f(n));
    }
    if |f(n)| <= |asked| {
      SamePrefix(f(n), asked, f(maxDepth));
      AskedGrows(store, dir, root, f(n), asked);
    }
  }

  /** What the search has found once the symbol `v`, which comes behind `asked`, has been asked too. */
  lemma NewDepths(store: Store, dir: Direction, root: SymbolID, f: nat -> seq<SymbolID>, maxDepth: nat, limit: nat,
                  asked: seq<SymbolID>, v: SymbolID, level: nat, j: nat, n: nat)
    requires AreLevels(store, dir, root, f) && asked + [v] <= f(maxDepth) && level < maxDepth && n <= maxDepth
    requires forall m: nat :: m <= maxDepth ==> (level <= m <==> |asked| < |f(m)|)
    requires 0 < limit && |FirstOf(Asked(store, dir, root, asked), limit)| <= j < |FirstOf(Asked(store, dir, root, asked + [v]), limit)|
    ensures level + 1 <= n <==> j < |f(n)|
  {
    AskedIs(store, dir, root, asked);
    if level + 1 <= n {
      AskedLevel(store, dir, root, f, maxDepth, asked + [v], n - 1);
    } else if n > 0 {
      AskedLevel(store, dir, root, f, maxDepth, asked, n - 1);
    }
  }

  lemma InnerBefore(f: nat -> seq<SymbolID>, maxDepth: nat, asked: seq<SymbolID>, v: SymbolID)
    requires 0 < maxDepth && |asked| < |f(maxDepth - 1)|
    ensures Inner(f, maxDepth, asked) == asked && Inner(f, maxDepth, asked + [v]) == asked + [v]
  {
  }

  lemma OldDepth(store: Store, s: Search, t: Search, a: seq<SymbolID>, b: seq<SymbolID>, level: nat, i: nat)
    requires Adds(store, s, t, a, b, level) && i < |a|
    ensures b[i] == a[i] && a[i] in s.depth && a[i] in t.depth && t.depth[a[i]] == s.depth[a[i]]
  {
    assert a[i] in a;
  }

  lemma MoreDepths(store: Store, dir: Direction, root: SymbolID, f: nat -> seq<SymbolID>, maxDepth: nat, limit: nat,
                   s: Search, t: Search, asked: seq<SymbolID>, v: SymbolID, level: nat, a: seq<SymbolID>, b: seq<SymbolID>)
    requires AreLevels(store, dir, root, f) && asked + [v] <= f(maxDepth) && level < maxDepth && 0 < limit
    requires DepthsAre(f, maxDepth, s.depth, a) && Adds(store, s, t, a, b, level + 1)
    requires forall m: nat :: m <= maxDepth ==> (level <= m <==> |asked| < |f(m)|)
    requires a == FirstOf(Asked(store, dir, root, asked), limit) && b == FirstOf(Asked(store, dir, root, asked + [v]), limit)
    ensures DepthsAre(f, maxDepth, t.depth, b)
  {
    forall i, n: nat | 0 <= i < |b| && n <= maxDepth ensures b[i] in t.depth && (t.depth[b[i]] <= n <==> i < |f(n)|) {
      if i < |a| {
        OldDepth(store, s, t, a, b, level + 1, i);
        assert a[i] in s.depth && (s.depth[a[i]] <= n <==> i < |f(n)|);
      } else {
        NewDepths(store, dir, root, f, maxDepth, limit, asked, v, level, i, n);
      }
    }
  }

  lemma Requeued(asked: seq<SymbolID>, queue: seq<SymbolID>, b: seq<SymbolID>)
    requires queue != [] && asked + queue <= b
    ensures asked + [queue[0]] + (queue[1..] + b[|asked + queue|..]) == b
  {
  }

  lemma FindsMore(store: Store, dir: Direction, root: SymbolID, f: nat -> seq<SymbolID>, maxDepth: nat, maxNodes: int,
                  s: Search, t: Search, asked: seq<SymbolID>, v: SymbolID, level: nat, b: seq<SymbolID>)
    requires AreLevels(store, dir, root, f) && Finding(store, dir, root, f, maxDepth, maxNodes, s, asked)
    requires s.queue != [] && v == s.queue[0] && v in s.depth && s.depth[v] == level < maxDepth
    requires b == FirstOf(Asked(store, dir, root, asked + [v]), Room(maxNodes)) && Inner(f, maxDepth, asked) == asked
    requires Inner(f, maxDepth, asked + [v]) == asked + [v] && asked + [v] <= f(maxDepth - 1) && asked + [v] <= f(maxDepth)
    requires Adds(store, Popped(s), t, asked + s.queue, b, level + 1)
    ensures Finding(store, dir, root, f, maxDepth, maxNodes, t, asked + [v])
  {
    Requeued(asked, s.queue, b);
    HeadDepth(f, maxDepth, s, asked);
    AskedLevel(store, dir, root, f, maxDepth, asked + [v], maxDepth - 1);
    MoreDepths(store, dir, root, f, maxDepth, Room(maxNodes), Popped(s), t, asked, v, level, asked + s.queue, b);
    FirstIsPrefix(Asked(store, dir, root, asked + [v]), Room(maxNodes), f(maxDepth));
    assert FoundSo(store, f, maxDepth, maxNodes, t, b, Asked(store, dir, root, asked + [v]));
  }

  lemma FirstIsPrefix(a: seq<SymbolID>, n: nat, c: seq<SymbolID>)
    requires a <= c
    ensures FirstOf(a, n) <= c
  {
  }

  lemma FirstMissingInOrder(store: Store, a: seq<SymbolID>, b: seq<SymbolID>, n: nat, id: SymbolID)
    requires a <= b && FirstMissing(store, FirstOf(a, n), id)
    ensures FirstMissing(store, FirstOf(b, n), id)
  {
    FirstOfGrows(a, b, n);
    StillFirstMissing(store, FirstOf(a, n), FirstOf(b, n), id);
  }

  /** A turn of the search asks the next symbol in the order of discovery. */
  lemma TurnFinds(store: Store, dir: Direction, root: SymbolID, f: nat -> seq<SymbolID>, maxDepth: nat, maxNodes: int,
                  s: Search, asked: seq<SymbolID>)
    requires AreLevels(store, dir, root, f) && Finding(store, dir, root, f, maxDepth, maxNodes, s, asked)
    requires s.queue != [] && s.queue[0] in s.depth
    ensures var r := Expand(store, dir, maxDepth, maxNodes, s);
            if r.Err? then FirstMissing(store, FirstOf(f(maxDepth), Room(maxNodes)), r.error.id)
            else Finding(store, dir, root, f, maxDepth, maxNodes, r.value, asked + [s.queue[0]])
  {
    var v, level := s.queue[0], s.depth[s.queue[0]];
    if level >= maxDepth {
      PassedOver(store, dir, root, f, maxDepth, maxNodes, s, asked);
    } else {
      var a := asked + s.queue;
      assert a[|asked|] == v;
      assert level <= maxDepth - 1 <==> |asked| < |f(maxDepth - 1)|;
      InnerBefore(f, maxDepth, asked, v);
      AskedIs(store, dir, root, asked);
      BothMeet(store, dir, maxNodes, Popped(s), v, level, Asked(store, dir, root, asked));
      AskedOnce(store, dir, root, asked, v);
      NextAsked(store, dir, root, f, maxDepth, asked, v, s.queue);
      var r := FollowBoth(store, dir, maxNodes, Popped(s), v, level);
      if r.Err? {
        AskedLevel(store, dir, root, f, maxDepth, asked + [v], maxDepth - 1);
        FirstMissingInOrder(store, Asked(store, dir, root, asked + [v]), f(maxDepth), Room(maxNodes), r.error.id);
      } else {
        FindsMore(store, dir, root, f, maxDepth, maxNodes, s, r.value, asked, v, level, FirstOf(Asked(store, dir, root, asked + [v]), Room(maxNodes)));
      }
    }
  }

  lemma NextAsked(store: Store, dir: Direction, root: SymbolID, f: nat -> seq<SymbolID>, maxDepth: nat, asked: seq<SymbolID>, v: SymbolID,
                  queue: seq<SymbolID>)
    requires AreLevels(store, dir, root, f) && 0 < maxDepth && queue != [] && queue[0] == v
    requires asked + queue <= f(maxDepth) && |asked| < |f(maxDepth - 1)|
    ensures asked + [v] <= f(maxDepth - 1) && asked + [v] <= f(maxDepth)
  {
    LevelsGrow(store, dir, root, f, maxDepth - 1, maxDepth);
    assert (asked + queue)[..|asked| + 1] == asked + [v];
    assert asked + [v] <= asked + queue;
    SamePrefix(asked + [v], f(maxDepth - 1), f(maxDepth));
  }

  function Begin(symbol: Symbol, root: SymbolID): Search {
    Search(map[root := symbol], map[root := 0], [root], map[], false)
  }

  lemma RootDepth(store: Store, dir: Direction, root: SymbolID, f: nat -> seq<SymbolID>, maxDepth: nat)
    requires AreLevels(store, dir, root, f)
    ensures DepthsAre(f, maxDepth, map[root := 0], [root])
  {
    forall n: nat | n <= maxDepth ensures 0 < |f(n)| { LevelsGrow(store, dir, root, f, 0, n); }
  }

  lemma BeginFinds(store: Store, dir: Direction, root: SymbolID, f: nat -> seq<SymbolID>, maxDepth: nat, maxNodes: int)
    requires AreLevels(store, dir, root, f) && root in store.symbols
    ensures Finding(store, dir, root, f, maxDepth, maxNodes, Begin(store.symbols[root], root), [])
  {
    LevelsGrow(store, dir, root, f, 0, maxDepth);
    RootDepth(store, dir, root, f, maxDepth);
    assert Inner(f, maxDepth, []) == [] && [] + [root] == [root];
    AskedNone(store, dir, root);
    assert FoundSo(store, f, maxDepth, maxNodes, Begin(store.symbols[root], root), [root], [root]);
    SameFinding(store, dir, root, f, maxDepth, maxNodes, Begin(store.symbols[root], root), [], [root], []);
  }

  lemma {:induction false} ClosedHoldsAll(store: Store, dir: Direction, root: SymbolID, f: nat -> seq<SymbolID>, found: seq<SymbolID>, n: nat)
    requires AreLevels(store, dir, root, f) && Asked(store, dir, root, found) == found && [root] <= found
    ensures f(n) <= found
  {
    if n > 0 {
      ClosedHoldsAll(store, dir, root, f, found, n - 1);
      AskedGrows(store, dir, root, f(n - 1), found);
      assert f(n - 1 + 1) == Asked(store, dir, root, f(n - 1));
    }
  }

  /** What lies before the limit has been asked, so nothing more lies within it. */
  lemma AskedIsAll(store: Store, dir: Direction, root: SymbolID, f: nat -> seq<SymbolID>, maxDepth: nat, asked: seq<SymbolID>)
    requires AreLevels(store, dir, root, f) && 0 < maxDepth && asked <= f(maxDepth)
    requires asked == Asked(store, dir, root, Inner(f, maxDepth, asked))
    ensures asked == f(maxDepth)
  {
    var m := maxDepth - 1;
    LevelsGrow(store, dir, root, f, m, maxDepth);
    assert f(m + 1) == Asked(store, dir, root, f(m));
    if |asked| < |f(m)| {
      AskedGrows(store, dir, root, [], asked);
      ClosedHoldsAll(store, dir, root, f, asked, m);
      assert false;
    }
    SamePrefix(f(m), asked, f(maxDepth));
    assert Inner(f, maxDepth, asked) == f(m);
  }

  /** With an empty queue all is found that there is room for. */
  lemma FoundAll(store: Store, dir: Direction, root: SymbolID, f: nat -> seq<SymbolID>, maxDepth: nat, maxNodes: int,
                 s: Search, asked: seq<SymbolID>)
    requires AreLevels(store, dir, root, f) && Finding(store, dir, root, f, maxDepth, maxNodes, s, asked) && s.queue == []
    ensures asked == FirstOf(f(maxDepth), Room(maxNodes))
  {
    assert asked + s.queue == asked;
    if |asked| < Room(maxNodes) {
      if maxDepth > 0 { AskedIsAll(store, dir, root, f, maxDepth, asked); }
    }
  }

  // ---------------------------------------------------------------------- the result

  /** Every symbol visited within the limit has had its calls followed: what `Closed` says once the queue is empty. */
  ghost predicate Exhausted(store: Store, dir: Direction, maxDepth: nat, depth: map<SymbolID, nat>) {
    forall v, w :: v in depth && depth[v] < maxDepth && Adjacent(store, dir, v, w) ==> w in depth && depth[w] <= depth[v] + 1
  }

  lemma {:induction false} CoversWalk(store: Store, dir: Direction, maxDepth: nat, depth: map<SymbolID, nat>, p: seq<SymbolID>)
    requires Exhausted(store, dir, maxDepth, depth) && Walk(store, dir, p) && |p| <= maxDepth + 1
    requires p[0] in depth && depth[p[0]] == 0
    ensures p[|p| - 1] in depth && depth[p[|p| - 1]] <= |p| - 1
    decreases |p|
  {
    if |p| > 1 {
      var q := p[..|p| - 1];
      assert Walk(store, dir, q);
      CoversWalk(store, dir, maxDepth, depth, q);
      assert Adjacent(store, dir, q[|q| - 1], p[|p| - 1]);
    }
  }

  lemma CoversLevel(store: Store, dir: Direction, root: SymbolID, maxDepth: nat, depth: map<SymbolID, nat>, n: nat, w: SymbolID)
    requires Exhausted(store, dir, maxDepth, depth)
    requires root in depth && depth[root] == 0 && n <= maxDepth
    requires w in Within(store, dir, root, n)
    ensures w in depth && depth[w] <= n
  {
    var p := WithinHasWalk(store, dir, root, w, n);
    CoversWalk(store, dir, maxDepth, depth, p);
  }

  /** `n` is the length of a shortest walk from the root to `v`. */
  ghost predicate Distance(store: Store, dir: Direction, root: SymbolID, v: SymbolID, n: nat) {
    v in Within(store, dir, root, n) && forall m: nat :: m < n ==> v !in Within(store, dir, root, m)
  }

  lemma SearchIsExact(store: Store, dir: Direction, root: SymbolID, maxDepth: nat, maxNodes: int, s: Search)
    requires Searching(store, dir, Near(store, dir, root), root, maxDepth, maxNodes, s) && s.queue == [] && !s.truncated
    ensures s.nodes.Keys == Within(store, dir, root, maxDepth)
    ensures forall v :: v in s.depth ==> Distance(store, dir, root, v, s.depth[v])
  {
    assert Exhausted(store, dir, maxDepth, s.depth);
    forall v | v in Within(store, dir, root, maxDepth) ensures v in s.nodes {
      CoversLevel(store, dir, root, maxDepth, s.depth, maxDepth, v);
    }
    SearchIsSound(store, dir, root, maxDepth, maxNodes, s);
    forall v | v in s.depth ensures Distance(store, dir, root, v, s.depth[v]) {
      assert v in Near(store, dir, root)(s.depth[v]);
      forall m: nat | m < s.depth[v] ensures v !in Within(store, dir, root, m) {
        WithinGrows(store, dir, root, s.depth[v], maxDepth);
        if v in Within(store, dir, root, m) { CoversLevel(store, dir, root, maxDepth, s.depth, m, v); }
      }
    }
  }

  /** However the search ends, it found only symbols within reach. */
  lemma SearchIsSound(store: Store, dir: Direction, root: SymbolID, maxDepth: nat, maxNodes: int, s: Search)
    requires Searching(store, dir, Near(store, dir, root), root, maxDepth, maxNodes, s)
    ensures s.nodes.Keys <= Within(store, dir, root, maxDepth)
  {
    forall v | v in s.nodes ensures v in Within(store, dir, root, maxDepth) {
      assert v in Near(store, dir, root)(s.depth[v]);
      WithinGrows(store, dir, root, s.depth[v], maxDepth);
    }
  }

  lemma SmallerSet<T>(a: set<T>, b: set<T>)
    requires a <= b
    ensures |a| <= |b| && (a != b ==> |a| < |b|)
  {
    assert b == a + (b - a);
  }

  /** The search gives up exactly when more symbols lie within reach than there is room for. */
  lemma TruncatedExactly(store: Store, dir: Direction, root: SymbolID, maxDepth: nat, maxNodes: int, s: Search)
    requires Searching(store, dir, Near(store, dir, root), root, maxDepth, maxNodes, s) && s.queue == []
    ensures s.truncated <==> |Within(store, dir, root, maxDepth)| > Room(maxNodes)
  {
    SearchIsSound(store, dir, root, maxDepth, maxNodes, s);
    SmallerSet(s.nodes.Keys, Within(store, dir, root, maxDepth));
    assert root in s.nodes.Keys;
    if s.truncated {
      var v :| v in Near(store, dir, root)(maxDepth) && v !in s.nodes;
      assert v in Within(store, dir, root, maxDepth);
    } else {
      SearchIsExact(store, dir, root, maxDepth, maxNodes, s);
    }
  }

  lemma BeginSearches(store: Store, dir: Direction, root: SymbolID, maxDepth: nat, maxNodes: int)
    requires root in store.symbols
    ensures Searching(store, dir, Near(store, dir, root), root, maxDepth, maxNodes, Begin(store.symbols[root], root))
    ensures EdgesExact(store, dir, maxDepth, Begin(store.symbols[root], root))
  {
    assert root in Near(store, dir, root)(0);
  }

  /**
    * What GetSymbolCallGraph promises about its answer: the symbols are the first in the order of discovery, as many as
    * there is room for, at their shortest distances; the calls are those of symbols nearer than the depth limit.
    */
  ghost predicate Promise(store: Store, dir: Direction, root: SymbolID, maxDepth: nat, maxNodes: int, g: Graph, depth: map<SymbolID, nat>) {
    && g.nodes.Keys == depth.Keys
    && (forall v :: v in g.nodes <==> v in FirstOf(Discovery(store, dir, root, maxDepth), Room(maxNodes)))
    && (forall v :: v in g.nodes ==> v in store.symbols && g.nodes[v] == store.symbols[v])
    && (g.truncated <==> |Within(store, dir, root, maxDepth)| > Room(maxNodes))
    && (!g.truncated ==> g.nodes.Keys == Within(store, dir, root, maxDepth))
    && (forall v :: v in depth ==> Distance(store, dir, root, v, depth[v]))
    && (forall k :: k in g.edges ==> g.edges[k].id == k && g.edges[k] in store.calls)
    && (forall k :: k in g.edges <==> exists i :: 0 <= i < |store.calls| && store.calls[i].id == k && Leaves(dir, maxDepth, depth, store.calls[i]))
  }

  /** The call has an end, on the side the direction asks for, that lies nearer than the depth limit. */
  predicate Leaves(dir: Direction, maxDepth: nat, depth: map<SymbolID, nat>, c: Call) {
    (dir != Callers && c.from in depth && depth[c.from] < maxDepth) || (dir != Callees && c.to in depth && depth[c.to] < maxDepth)
  }

  /** With an empty queue the calls of expanded symbols are those that leave a symbol nearer than the limit. */
  lemma EdgesLeave(store: Store, dir: Direction, maxDepth: nat, s: Search)
    requires EdgesExact(store, dir, maxDepth, s) && s.queue == []
    ensures forall k :: k in s.edges <==> exists i :: 0 <= i < |store.calls| && store.calls[i].id == k && Leaves(dir, maxDepth, s.depth, store.calls[i])
  {
    assert forall i :: 0 <= i < |store.calls| ==> (Touches(dir, maxDepth, s, store.calls[i]) <==> Leaves(dir, maxDepth, s.depth, store.calls[i]));
  }

  lemma NotYet(a: seq<SymbolID>, b: seq<SymbolID>, i: nat)
    requires a <= b && Distinct(b) && |a| <= i < |b|
    ensures b[i] !in a
  {
    forall j | 0 <= j < |a| ensures a[j] != b[i] { assert a[j] == b[j]; }
  }

  /** The level at which a symbol is discovered is its distance. */
  lemma LevelIsDistance(store: Store, dir: Direction, root: SymbolID, n: nat, i: nat, d: nat)
    requires i < |Discovered(store, dir, root)(n)| && d <= n
    requires forall m: nat :: m <= n ==> (d <= m <==> i < |Discovered(store, dir, root)(m)|)
    ensures Distance(store, dir, root, Discovered(store, dir, root)(n)[i], d)
  {
    var f := Discovered(store, dir, root);
    var v := f(n)[i];
    DiscoveredAreLevels(store, dir, root);
    LevelsGrow(store, dir, root, f, d, n);
    DiscoveryIsWithin(store, dir, root, n);
    DiscoveryIsWithin(store, dir, root, d);
    assert i < |f(d)| && f(d)[i] == v && v in f(d);
    forall m: nat | m < d ensures v !in Within(store, dir, root, m) {
      LevelsGrow(store, dir, root, f, m, n);
      DiscoveryIsWithin(store, dir, root, m);
      NotYet(f(m), f(n), i);
    }
  }

  lemma DepthsAreDistances(store: Store, dir: Direction, root: SymbolID, maxDepth: nat, depth: map<SymbolID, nat>, found: seq<SymbolID>)
    requires found <= Discovered(store, dir, root)(maxDepth) && DepthsAre(Discovered(store, dir, root), maxDepth, depth, found)
    ensures forall v :: v in found ==> v in depth && Distance(store, dir, root, v, depth[v])
  {
    forall v | v in found ensures v in depth && Distance(store, dir, root, v, depth[v]) {
      var i :| 0 <= i < |found| && found[i] == v;
      DepthOfOne(Discovered(store, dir, root), maxDepth, depth, found, i);
      LevelIsDistance(store, dir, root, maxDepth, i, depth[v]);
    }
  }

  lemma DepthOfOne(f: nat -> seq<SymbolID>, maxDepth: nat, depth: map<SymbolID, nat>, found: seq<SymbolID>, i: nat)
    requires found <= f(maxDepth) && DepthsAre(f, maxDepth, depth, found) && i < |found|
    ensures found[i] in depth && depth[found[i]] <= maxDepth && i < |f(maxDepth)| && found[i] == f(maxDepth)[i]
    ensures forall m: nat :: m <= maxDepth ==> (depth[found[i]] <= m <==> i < |f(m)|)
  {
    assert |f(maxDepth)| > i && found[i] in depth;
  }

  lemma SearchKeepsPromise(store: Store, dir: Direction, root: SymbolID, maxDepth: nat, maxNodes: int, s: Search, asked: seq<SymbolID>)
    requires Searching(store, dir, Near(store, dir, root), root, maxDepth, maxNodes, s) && s.queue == []
    requires EdgesExact(store, dir, maxDepth, s)
    requires Finding(store, dir, root, Discovered(store, dir, root), maxDepth, maxNodes, s, asked)
    ensures Promise(store, dir, root, maxDepth, maxNodes, Graph(s.nodes, s.edges, s.truncated), s.depth)
  {
    var f := Discovered(store, dir, root);
    DiscoveredAreLevels(store, dir, root);
    FoundAll(store, dir, root, f, maxDepth, maxNodes, s, asked);
    assert asked + s.queue == asked;
    assert f(maxDepth) == Discovery(store, dir, root, maxDepth);
    DepthsAreDistances(store, dir, root, maxDepth, s.depth, asked);
    TruncatedExactly(store, dir, root, maxDepth, maxNodes, s);
    if !s.truncated { SearchIsExact(store, dir, root, maxDepth, maxNodes, s); }
    EdgesLeave(store, dir, maxDepth, s);
  }

  /** Either a new symbol was found, or the queue got shorter. */
  lemma ExpandProgresses(store: Store, s: Search, t: Search)
    requires s.queue != [] && Extends(Popped(s), t)
    requires s.nodes.Keys == s.depth.Keys && t.nodes.Keys == t.depth.Keys && t.nodes.Keys <= store.symbols.Keys
    ensures store.symbols.Keys - t.nodes.Keys < store.symbols.Keys - s.nodes.Keys
            || (t.nodes.Keys == s.nodes.Keys && |t.queue| < |s.queue|)
  {
    var p := Popped(s);
    if |t.queue| > |p.queue| {
      assert t.queue[|p.queue|] in t.depth && t.queue[|p.queue|] !in s.depth;
    } else {
      assert t.queue[|p.queue|..] == [];
    }
  }

  lemma TurnKeeps(store: Store, dir: Direction, root: SymbolID, maxDepth: nat, maxNodes: int, s: Search)
    requires Searching(store, dir, Near(store, dir, root), root, maxDepth, maxNodes, s) && s.queue != []
    requires EdgesExact(store, dir, maxDepth, s)
    ensures var r := Expand(store, dir, maxDepth, maxNodes, s);
            if r.Err? then
              r.error.id !in store.symbols && r.error.id in Within(store, dir, root, maxDepth)
            else
              && Searching(store, dir, Near(store, dir, root), root, maxDepth, maxNodes, r.value)
              && EdgesExact(store, dir, maxDepth, r.value)
              && (store.symbols.Keys - r.value.nodes.Keys < store.symbols.Keys - s.nodes.Keys
                  || (r.value.nodes.Keys == s.nodes.Keys && |r.value.queue| < |s.queue|))
  {
    NearIsNested(store, dir, root, maxDepth);
    ExpandKeeps(store, dir, Near(store, dir, root), root, maxDepth, maxNodes, s);
    var r := Expand(store, dir, maxDepth, maxNodes, s);
    if r.Ok? {
      ExpandKeepsEdges(store, dir, Near(store, dir, root), root, maxDepth, maxNodes, s);
      ExpandProgresses(store, s, r.value);
    }
  }

  /** One turn of the search: take the head of the queue and follow its calls. */
  method ExpandHead(store: Store, direction: Direction, maxDepth: nat, maxNodes: int, before: Search) returns (r: Result<Search, Failure>)
    requires before.queue != [] && before.queue[0] in before.depth
    ensures r == Expand(store, direction, maxDepth, maxNodes, before)
  {
    var currentID := before.queue[0];
    var s := before.(queue := before.queue[1..]);
    var depth := before.depth[currentID];
    if depth >= maxDepth {
      return Ok(s);
    }
    if direction != Callers {
      r := FollowAll(store, maxNodes, s, Outgoing(store.calls, currentID), false, depth);
      if r.Err? { return; }
      s := r.value;
    }
    if direction != Callees {
      r := FollowAll(store, maxNodes, s, Incoming(store.calls, currentID), true, depth);
      if r.Err? { return; }
      s := r.value;
    }
    return Ok(s);
  }

  lemma RootIsMissing(store: Store, dir: Direction, root: SymbolID, maxDepth: nat, maxNodes: int)
    requires root !in store.symbols
    ensures FirstMissing(store, FirstOf(Discovery(store, dir, root, maxDepth), Room(maxNodes)), root)
    ensures root in Within(store, dir, root, maxDepth)
  {
    DiscoveryGrows(store, dir, root, 0, maxDepth);
    WithinGrows(store, dir, root, 0, maxDepth);
    assert FirstOf(Discovery(store, dir, root, maxDepth), Room(maxNodes))[0] == root;
  }

  /** The invariant of the outer loop, with `asked` taken off the queue so far. */
  ghost predicate Looking(store: Store, dir: Direction, root: SymbolID, maxDepth: nat, maxNodes: int, s: Search, asked: seq<SymbolID>) {
    && Searching(store, dir, Near(store, dir, root), root, maxDepth, maxNodes, s)
    && EdgesExact(store, dir, maxDepth, s)
    && Finding(store, dir, root, Discovered(store, dir, root), maxDepth, maxNodes, s, asked)
  }

  lemma MissingInDiscovery(store: Store, dir: Direction, root: SymbolID, maxDepth: nat, maxNodes: int, id: SymbolID)
    requires FirstMissing(store, FirstOf(Discovered(store, dir, root)(maxDepth), Room(maxNodes)), id)
    ensures FirstMissing(store, FirstOf(Discovery(store, dir, root, maxDepth), Room(maxNodes)), id)
  {
  }

  lemma OneMoreTurn(store: Store, dir: Direction, root: SymbolID, maxDepth: nat, maxNodes: int, s: Search, asked: seq<SymbolID>)
    requires Looking(store, dir, root, maxDepth, maxNodes, s, asked) && s.queue != []
    ensures s.queue[0] in s.depth
    ensures var r := Expand(store, dir, maxDepth, maxNodes, s);
            if r.Err? then
              && FirstMissing(store, FirstOf(Discovery(store, dir, root, maxDepth), Room(maxNodes)), r.error.id)
              && r.error.id in Within(store, dir, root, maxDepth)
            else
              && Looking(store, dir, root, maxDepth, maxNodes, r.value, asked + [s.queue[0]])
              && (store.symbols.Keys - r.value.nodes.Keys < store.symbols.Keys - s.nodes.Keys
                  || (r.value.nodes.Keys == s.nodes.Keys && |r.value.queue| < |s.queue|))
  {
    DiscoveredAreLevels(store, dir, root);
    TurnKeeps(store, dir, root, maxDepth, maxNodes, s);
    TurnFinds(store, dir, root, Discovered(store, dir, root), maxDepth, maxNodes, s, asked);
    var r := Expand(store, dir, maxDepth, maxNodes, s);
    if r.Err? { MissingInDiscovery(store, dir, root, maxDepth, maxNodes, r.error.id); }
  }

  lemma BeginLooks(store: Store, dir: Direction, root: SymbolID, maxDepth: nat, maxNodes: int)
    requires root in store.symbols
    ensures Looking(store, dir, root, maxDepth, maxNodes, Begin(store.symbols[root], root), [])
  {
    DiscoveredAreLevels(store, dir, root);
    BeginSearches(store, dir, root, maxDepth, maxNodes);
    BeginFinds(store, dir, root, Discovered(store, dir, root), maxDepth, maxNodes);
  }

  lemma LookedThrough(store: Store, dir: Direction, root: SymbolID, maxDepth: nat, maxNodes: int, s: Search, asked: seq<SymbolID>)
    requires Looking(store, dir, root, maxDepth, maxNodes, s, asked) && s.queue == []
    ensures Promise(store, dir, root, maxDepth, maxNodes, Graph(s.nodes, s.edges, s.truncated), s.depth)
  {
    SearchKeepsPromise(store, dir, root, maxDepth, maxNodes, s, asked);
  }

  /** The outer loop: one symbol after the other is taken off the queue. */
  method Traverse(store: Store, root: SymbolID, direction: Direction, maxDepth: nat, maxNodes: int, begin: Search)
    returns (r: Result<Search, Failure>, ghost asked: seq<SymbolID>)
    requires Looking(store, direction, root, maxDepth, maxNodes, begin, [])
    ensures r.Ok? ==> Looking(store, direction, root, maxDepth, maxNodes, r.value, asked) && r.value.queue == []
    ensures r.Err? ==>
              && FirstMissing(store, FirstOf(Discovery(store, direction, root, maxDepth), Room(maxNodes)), r.error.id)
              && r.error.id in Within(store, direction, root, maxDepth)
  {
    var s := begin;
    asked := [];
    while s.queue != []
      invariant Looking(store, direction, root, maxDepth, maxNodes, s, asked)
      decreases store.symbols.Keys - s.nodes.Keys, |s.queue|
    {
      OneMoreTurn(store, direction, root, maxDepth, maxNodes, s, asked);
      r := ExpandHead(store, direction, maxDepth, maxNodes, s);
      if r.Err? {
        return;
      }
      asked, s := asked + [s.queue[0]], r.value;
    }
    r := Ok(s);
  }

  method GetSymbolCallGraph(store: Store, symbolID: SymbolID, direction: Direction, maxDepth: nat, maxNodes: int)
    returns (r: Result<Graph, Failure>, visitedDepth: map<SymbolID, nat>)
    ensures symbolID !in store.symbols ==> r == Err(SymbolNotFound(symbolID))
    ensures r.Err? ==> r.error.id in Within(store, direction, symbolID, maxDepth)
    ensures r.Err? ==> FirstMissing(store, FirstOf(Discovery(store, direction, symbolID, maxDepth), Room(maxNodes)), r.error.id)
    ensures r.Ok? ==> Promise(store, direction, symbolID, maxDepth, maxNodes, r.value, visitedDepth)
  {
    visitedDepth := map[];
    if symbolID !in store.symbols {
      RootIsMissing(store, direction, symbolID, maxDepth, maxNodes);
      return Err(SymbolNotFound(symbolID)), visitedDepth;
    }
    BeginLooks(store, direction, symbolID, maxDepth, maxNodes);
    ghost var asked;
    var search;
    search, asked := Traverse(store, symbolID, direction, maxDepth, maxNodes, Begin(store.symbols[symbolID], symbolID));
    if search.Err? {
      return Err(search.error), visitedDepth;
    }
    var s := search.value;
    LookedThrough(store, direction, symbolID, maxDepth, maxNodes, s, asked);
    return Ok(Graph(s.nodes, s.edges, s.truncated)), s.depth;
  }
}
