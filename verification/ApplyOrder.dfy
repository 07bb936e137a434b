/** orderForPrivilegeSplit of api/apply_order.go: the chunk order of an Apply
    plan, from the cycle check to the choice between the starting classes. */
module ApplyOrder {
  import opened Walks
  import opened Levels
  import opened LevelGraphs
  import opened Ops
  import opened DepGraphs
  import opened ApplyLevels
  import opened Conflicts
  import opened KeptWatches
  import opened Kahn
  import opened PathDeps
  import opened ChunkOrders

  /** Op v lists an ID that op d is the first to carry. */
  ghost predicate DependsOn(body: seq<Op>, v: nat, d: nat) {
    v < |body| && exists k :: 0 <= k < |body[v].deps| && body[v].deps[k] != "" && FirstIndex(body, body[v].deps[k]) == d
  }

  /** The recorded dependency edges of a body, dep -> dependent. */
  ghost function BodyDeps(body: seq<Op>): Edges {
    set d: nat, v: nat | d < |body| && v < |body| && DependsOn(body, v, d) :: (d, v)
  }

  /** The dependency graph holds exactly the recorded dependencies. */
  lemma {:induction false} GraphDeps(g: DepGraph, body: seq<Op>)
    requires GraphOf(g, body)
    ensures DepEdges(g) == BodyDeps(body)
  {
    forall d: nat, v: nat
      ensures (d, v) in DepEdges(g) <==> (d, v) in BodyDeps(body)
    {
      EdgeListed(g, |body|, d, v);
      if d < |body| && v < |body| {
        NamedMember(g.byId, body[v].deps, d);
        NamedIff(g, body, v, d);
      }
    }
  }

  lemma {:induction false} NamedIff(g: DepGraph, body: seq<Op>, v: nat, d: nat)
    requires IndexesIds(g.byId, body) && v < |body|
    ensures (exists id :: id in body[v].deps && id in g.byId && g.byId[id] == d) <==> DependsOn(body, v, d)
  {
    if DependsOn(body, v, d) {
      var k :| 0 <= k < |body[v].deps| && body[v].deps[k] != "" && FirstIndex(body, body[v].deps[k]) == d;
      assert body[v].deps[k] in body[v].deps;
    }
  }

  /** A closed chain of dependencies, each op depending on the next one. */
  ghost predicate DepLoop(e: Edges, loop: seq<nat>) {
    && |loop| >= 2 && loop[0] == loop[|loop| - 1]
    && (forall i :: 0 <= i < |loop| - 1 ==> (loop[i + 1], loop[i]) in e)
    && (forall i, j :: 0 <= i < j < |loop| - 1 ==> loop[i] != loop[j])
  }

  lemma {:induction false} ChainReaches(e: Edges, loop: seq<nat>, k: nat)
    requires k < |loop| && forall i :: 0 <= i < |loop| - 1 ==> (loop[i + 1], loop[i]) in e
    ensures Reach(e, loop[k], loop[0])
  {
    ReachRefl(e, loop[0]);
    if k > 0 {
      ChainReaches(e, loop, k - 1);
      EdgeThenReach(e, loop[k], loop[k - 1], loop[0]);
    }
  }

  /** A reported loop refutes acyclicity. */
  lemma {:induction false} LoopIsCycle(e: Edges, loop: seq<nat>)
    requires DepLoop(e, loop)
    ensures !Acyclic(e)
  {
    var last := |loop| - 1;
    assert (loop[1], loop[0]) in e;
    ChainReaches(e, loop[1..], last - 1);
  }

  ghost predicate BlockedCounts(g: DepGraph, indeg: seq<int>) {
    |indeg| == |g.deps| && forall v: nat :: v < |indeg| ==> indeg[v] >= 0 && (indeg[v] > 0 <==> Blocked(DepEdges(g), v))
  }

  /** cycleBlocked. */
  method CycleBlocked(g: DepGraph) returns (blocked: seq<int>, acyclic: bool)
    requires GraphOk(g, |g.deps|)
    ensures acyclic <==> Acyclic(DepEdges(g))
    ensures BlockedCounts(g, blocked) && (!acyclic ==> exists v: nat :: v < |blocked| && blocked[v] > 0)
  {
    var rank := seq(|g.deps|, _ => 0);
    var order, indeg := KahnPass(g, rank);
    KahnComplete(g, rank, order);
    forall v: nat | v < |g.deps|
      ensures indeg[v] >= 0 && (indeg[v] > 0 <==> v !in order) && (indeg[v] > 0 <==> Blocked(DepEdges(g), v))
    {
      LeftOver(g, rank, order, indeg, v);
    }
    if |order| < |g.deps| && forall v: nat :: v < |g.deps| ==> v in order {
      AllOf(|g.deps|, order);
    }
    return indeg, |order| == |g.deps|;
  }

  /** blockedDep: a dep of op that is itself blocked, or -1. */
  method BlockedDep(g: DepGraph, op: nat, blocked: seq<int>) returns (d: int)
    requires GraphOk(g, |g.deps|) && op < |g.deps| && |blocked| == |g.deps|
    ensures d >= 0 ==> d < |blocked| && blocked[d] > 0 && (d, op) in DepEdges(g)
    ensures d < 0 ==> d == -1 && forall u: nat :: (u, op) in DepEdges(g) ==> u < |blocked| && blocked[u] <= 0
  {
    GraphLists(g, |g.deps|);
    for k := 0 to |g.deps[op]|
      invariant forall j :: 0 <= j < k ==> g.deps[op][j] < |blocked| && blocked[g.deps[op][j]] <= 0
    {
      assert g.deps[op][k] in g.deps[op];
      EdgeListed(g, |g.deps|, g.deps[op][k], op);
      if blocked[g.deps[op][k]] > 0 {
        return g.deps[op][k];
      }
    }
    forall u: nat | (u, op) in DepEdges(g)
      ensures u < |blocked| && blocked[u] <= 0
    {
      EdgeListed(g, |g.deps|, u, op);
    }
    return -1;
  }

  /** A blocked op has a blocked dependency. */
  lemma {:induction false} BlockedHasDep(g: DepGraph, v: nat) returns (u: nat)
    requires Blocked(DepEdges(g), v)
    ensures (u, v) in DepEdges(g) && Blocked(DepEdges(g), u)
  {
    var e := DepEdges(g);
    var c: nat :| OnCycle(e, c) && Reach(e, c, v);
    if c == v {
      var w: nat :| (c, w) in e && Reach(e, w, c);
      if w == c {
        u := c;
      } else {
        u := ReachLast(e, w, c);
        EdgeThenReach(e, c, w, u);
      }
    } else {
      u := ReachLast(e, c, v);
    }
  }

  /** The walk so far: each op depends on the next and is blocked. */
  ghost predicate Walking(g: DepGraph, blocked: seq<int>, path: seq<nat>, at: nat) {
    && |blocked| == |g.deps| && at < |blocked| && blocked[at] > 0
    && (forall i :: 0 <= i < |path| ==> path[i] < |blocked| && blocked[path[i]] > 0)
    && (forall i :: 0 <= i < |path| - 1 ==> (path[i + 1], path[i]) in DepEdges(g))
    && (|path| > 0 ==> (at, path[|path| - 1]) in DepEdges(g))
    && Distinct(path)
  }

  lemma {:induction false} LoopFound(g: DepGraph, blocked: seq<int>, path: seq<nat>, at: nat, start: nat)
    requires Walking(g, blocked, path, at) && start < |path| && path[start] == at
    ensures DepLoop(DepEdges(g), path[start..] + [at])
  {
  }

  lemma {:induction false} WalkNext(g: DepGraph, blocked: seq<int>, path: seq<nat>, at: nat, next: int)
    requires BlockedCounts(g, blocked) && Walking(g, blocked, path, at) && at !in path
    requires next >= 0 ==> next < |blocked| && blocked[next] > 0 && (next, at) in DepEdges(g)
    requires next < 0 ==> forall u: nat :: (u, at) in DepEdges(g) ==> u < |blocked| && blocked[u] <= 0
    ensures next >= 0 && Walking(g, blocked, path + [at], next) && |path| < |blocked|
  {
    var u := BlockedHasDep(g, at);
    hide Blocked;
    DistinctBelow(path + [at], |blocked|);
  }

  /** seen maps each op of the path to its place. */
  ghost predicate Placed(seen: map<nat, nat>, path: seq<nat>) {
    && (forall v :: v in seen ==> seen[v] < |path| && path[seen[v]] == v)
    && (forall k :: 0 <= k < |path| ==> path[k] in seen)
  }

  /** cycleError: the loop it names, or None for its fallback message. */
  method CycleError(g: DepGraph, blocked: seq<int>) returns (loop: Option<seq<nat>>)
    requires GraphOk(g, |g.deps|) && BlockedCounts(g, blocked)
    ensures (exists v: nat :: v < |blocked| && blocked[v] > 0) ==> loop.Some?
    ensures loop.Some? ==> DepLoop(DepEdges(g), loop.value)
  {
    hide GraphOk, Blocked, Walking, DepLoop, BlockedCounts, DepEdges;
    SameCount(g, blocked);
    var at := -1;
    for i := 0 to |blocked|
      invariant at == -1 && forall v: nat :: v < i ==> blocked[v] <= 0
    {
      if blocked[i] > 0 {
        at := i;
        break;
      }
    }
    if at >= 0 {
      WalkStart(g, blocked, at);
    }
    ghost var any := at >= 0;
    var seen: map<nat, nat>, path: seq<nat> := map[], [];
    while at >= 0
      invariant any ==> at >= 0 && Walking(g, blocked, path, at)
      invariant !any ==> at == -1
      invariant Placed(seen, path)
      decreases |blocked| - |path|
    {
      if at in seen {
        LoopFound(g, blocked, path, at, seen[at]);
        return Some(path[seen[at]..] + [at]);
      }
      InRangeAt(g, blocked, path, at);
      ghost var was, from := path, at;
      seen := seen[at := |path|];
      path := path + [at];
      at := BlockedDep(g, at, blocked);
      WalkNext(g, blocked, was, from, at);
    }
    return None;
  }

  lemma {:induction false} SameCount(g: DepGraph, blocked: seq<int>)
    requires BlockedCounts(g, blocked)
    ensures |blocked| == |g.deps|
  {
  }

  lemma {:induction false} WalkStart(g: DepGraph, blocked: seq<int>, at: nat)
    requires |blocked| == |g.deps| && at < |blocked| && blocked[at] > 0
    ensures Walking(g, blocked, [], at)
  {
  }

  lemma {:induction false} InRangeAt(g: DepGraph, blocked: seq<int>, path: seq<nat>, at: nat)
    requires Walking(g, blocked, path, at)
    ensures at < |g.deps| == |blocked|
  {
  }

  /** An acyclic graph has an op without deps. */
  lemma {:induction false} SomeReady(g: DepGraph)
    requires GraphOk(g, |g.deps|) && Acyclic(DepEdges(g)) && |g.deps| > 0
    ensures exists v :: 0 <= v < |g.deps| && |g.deps[v]| == 0
  {
    if forall v :: 0 <= v < |g.deps| ==> |g.deps[v]| > 0 {
      forall u: nat
        ensures !Ready(g, [], u)
      {
        assert u < |g.deps| ==> g.deps[u][0] !in [];
      }
      UnemittedBlocked(g, [], 0);
    }
  }

  /** firstReady: the lowest-indexed op without deps, or -1. */
  method FirstReady(g: DepGraph) returns (at: int)
    ensures -1 <= at < |g.deps|
    ensures at >= 0 ==> g.deps[at] == [] && forall i :: 0 <= i < at ==> g.deps[i] != []
    ensures at < 0 ==> forall i :: 0 <= i < |g.deps| ==> g.deps[i] != []
  {
    for i := 0 to |g.deps|
      invariant forall j :: 0 <= j < i ==> g.deps[j] != []
    {
      if |g.deps[i]| == 0 {
        return i;
      }
    }
    return -1;
  }

  method LevelOrder(g: DepGraph, level: seq<int>) returns (order: seq<nat>)
    requires GraphOk(g, |g.deps|) && |level| == |g.deps|
    ensures Acyclic(DepEdges(g)) ==> KahnOrder(g, level, order) && Permutation(|g.deps|, order)
    ensures !Acyclic(DepEdges(g)) ==> order == []
  {
    var indeg;
    order, indeg := KahnPass(g, level);
    KahnComplete(g, level, order);
    if |order| < |g.deps| {
      order := [];
    }
  }

  /** The edges the level graph lists, as adjacency lists. */
  method EachEdge(lg: LevelGraph) returns (next: seq<seq<nat>>)
    requires lg.Valid()
    ensures |next| == |lg.elev| && Bounded(next, |next|) && ListEdges(next) == AllEdges(lg.Value())
  {
    next := seq(|lg.elev|, u requires 0 <= u < |lg.elev| reads lg => lg.Out(u));
    forall u: nat, v: nat
      ensures u < |next| && v in next[u] ==> v < |next|
      ensures (u, v) in ListEdges(next) <==> (u, v) in AllEdges(lg.Value())
    {
      lg.EdgeListed(u, v);
    }
  }

  /** withParentDirDeps: the graph with the inferred edges appended. */
  method WithParentDirDeps(g: DepGraph, body: seq<Op>, kept: seq<WatchPair>)
    returns (h: DepGraph, edges: seq<ParentDirEdge>)
    requires GraphOk(g, |body|) && AllSameClass(Classes(body), kept)
    ensures GraphOk(h, |body|) && DepEdges(h) == DepEdges(g) + EdgeSet(edges)
    ensures Inferred(body, AllEdges(SystemOf(g, body, Members(kept))), edges, |body|)
  {
    hide GraphOk, EdgeSet, Inferred, LevelGraph.Valid, LevelGraph.ScratchValid, AllEdges, ListEdges, Bounded;
    var lg := NewLevelGraph(g, body, kept);
    var next := EachEdge(lg);
    edges := InferParentDirDeps(body, next);
    var deps, waiters := g.deps, g.waiters;
    GraphLists(g, |body|);
    EdgesNamed(body, ListEdges(next), edges);
    GraphParts(g, |body|);
    NoEdgesYet(waiters);
    for k := 0 to |edges|
      invariant ListsOk(deps, waiters, |body|) && |deps| == |waiters| == |body|
      invariant ListEdges(waiters) == DepEdges(g) + EdgeSet(edges[..k])
    {
      assert edges[..k + 1] == edges[..k] + [edges[k]];
      EdgeSetNext(edges[..k], edges[k]);
      ListsAppend(deps, waiters, |body|, edges[k].dep, edges[k].dependent);
      AppendedEdge(waiters, edges[k].dep, edges[k].dependent);
      deps := Append(deps, edges[k].dependent, edges[k].dep);
      waiters := Append(waiters, edges[k].dep, edges[k].dependent);
    }
    assert edges[..|edges|] == edges;
    h := DepGraph(g.byId, deps, waiters);
    GraphParts(h, |body|);
  }

  lemma {:induction false} GraphParts(g: DepGraph, n: nat)
    ensures GraphOk(g, n) <==> ListsOk(g.deps, g.waiters, n)
    ensures DepEdges(g) == ListEdges(g.waiters)
  {
  }

  /** Edges accepted against more edges would be accepted against fewer. */
  lemma {:induction false} AcceptedMono(less: Edges, given: Edges, edges: seq<ParentDirEdge>)
    requires less <= given && AcceptedInOrder(given, edges)
    ensures AcceptedInOrder(less, edges)
  {
    hide EdgeSet, Reach;
    forall k | 0 <= k < |edges|
      ensures !Reach(less + EdgeSet(edges[..k]), edges[k].dependent, edges[k].dep)
    {
      if Reach(less + EdgeSet(edges[..k]), edges[k].dependent, edges[k].dep) {
        ReachMono(less + EdgeSet(edges[..k]), given + EdgeSet(edges[..k]), edges[k].dependent, edges[k].dep);
      }
    }
  }

  /** Accepted edges leave the watches satisfiable. */
  lemma {:induction false} AcceptedNoCross(elev: seq<bool>, given: Edges, edges: seq<ParentDirEdge>)
    requires AcceptedInOrder(given, edges) && NoCross(elev, given)
    ensures NoCross(elev, given + EdgeSet(edges))
    decreases |edges|
  {
    hide Reach, AcceptedInOrder, NoCross;
    if edges == [] {
      assert given + EdgeSet([]) == given;
    } else {
      var rest, last := edges[..|edges| - 1], edges[|edges| - 1];
      LastAccepted(given, edges);
      AcceptedNoCross(elev, given, rest);
      NoCrossWithEdge(elev, given + EdgeSet(rest), last.dep, last.dependent);
    }
  }

  /** What the inferred edges leave as it was: the graph stays acyclic and the
      kept watches fit together. */
  lemma {:induction false} InferenceKeeps(g: DepGraph, h: DepGraph, body: seq<Op>, ws: set<WatchPair>,
                                          edges: seq<ParentDirEdge>)
    requires Acyclic(DepEdges(g)) && NoCross(Classes(body), AllEdges(SystemOf(g, body, ws)))
    requires DepEdges(h) == DepEdges(g) + EdgeSet(edges)
    requires Inferred(body, AllEdges(SystemOf(g, body, ws)), edges, |body|)
    ensures Acyclic(DepEdges(h)) && NoCross(Classes(body), AllEdges(SystemOf(h, body, ws)))
  {
    hide Acyclic, NoCross, EdgeSet, DepEdges;
    var given := AllEdges(SystemOf(g, body, ws));
    AcceptedNoCross(Classes(body), given, edges);
    assert AllEdges(SystemOf(h, body, ws)) == given + EdgeSet(edges);
    AcceptedMono(DepEdges(g), given, edges);
    AcceptedAcyclic(DepEdges(g), edges);
  }

  /** order lists the ops by the least levels that put class start at level
      0, dependencies first. */
  ghost predicate LeastOrder(g: DepGraph, body: seq<Op>, ws: set<WatchPair>, start: bool, order: seq<nat>) {
    |g.deps| == |body| &&
    exists level :: |level| == |body| && LeastLevels(SystemOf(g, body, ws), start, level) && KahnOrder(g, level, order)
  }

  lemma {:induction false} OrderFits(g: DepGraph, body: seq<Op>, ws: set<WatchPair>, start: bool, level: seq<int>,
                                     order: seq<nat>)
    requires GraphOk(g, |body|) && |level| == |body| && LeastLevels(SystemOf(g, body, ws), start, level)
    requires KahnOrder(g, level, order) && Permutation(|body|, order)
    ensures LevelSorted(level, order) && InOrder(DepEdges(g), order)
  {
    KahnInOrder(g, level, order);
    LeastRises(g, body, ws, start, level);
    hide LeastLevels, KahnOrder;
    forall j, k | 0 <= j <= k < |order|
      ensures level[order[j]] <= level[order[k]]
    {
      KahnRankRises(g, level, order, j, k);
    }
  }

  lemma {:induction false} LeastRises(g: DepGraph, body: seq<Op>, ws: set<WatchPair>, start: bool, level: seq<int>)
    requires |level| == |body| && LeastLevels(SystemOf(g, body, ws), start, level)
    ensures forall u: nat, v: nat :: (u, v) in DepEdges(g) && u < |level| && v < |level| ==> level[u] <= level[v]
  {
  }

  method OrderFor(g: DepGraph, body: seq<Op>, start: bool, kept: seq<WatchPair>)
    returns (order: seq<nat>, ghost level: seq<int>)
    requires GraphOk(g, |body|) && AllSameClass(Classes(body), kept)
    requires NoCross(Classes(body), AllEdges(SystemOf(g, body, Members(kept)))) && Acyclic(DepEdges(g))
    ensures LeastOrder(g, body, Members(kept), start, order)
    ensures LeastLevels(SystemOf(g, body, Members(kept)), start, level) && LevelSorted(level, order)
    ensures Permutation(|body|, order) && InOrder(DepEdges(g), order)
  {
    hide NoCross, Acyclic, LeastLevels, GraphOk, KahnOrder, AllEdges, Permutation;
    GraphLists(g, |body|);
    var found := ChunkLevels(g, body, start, kept);
    level := found;
    LevelCount(SystemOf(g, body, Members(kept)), start, found);
    order := LevelOrder(g, found);
    OrderFits(g, body, Members(kept), start, found, order);
  }

  lemma {:induction false} LevelCount(sys: Constraints, start: bool, level: seq<int>)
    requires LeastLevels(sys, start, level)
    ensures |level| == |sys.elev|
  {
  }

  /** What the scheduler decides, besides the ops it returns. */
  datatype Schedule = Schedule(order: seq<nat>, kept: seq<WatchPair>, inferred: seq<ParentDirEdge>,
                               recorded: DepGraph, extended: DepGraph)

  /** The rules a schedule's order meets: the recorded and the inferred
      dependencies and the kept watches. */
  ghost function Rules(body: seq<Op>, s: Schedule): Constraints {
    Constraints(Classes(body), BodyDeps(body) + EdgeSet(s.inferred), Members(s.kept))
  }

  /** The order of class start unless the other class saves a chunk, where
      start is the class of the first op that waits for nothing. */
  ghost predicate StartChosen(body: seq<Op>, s: Schedule)
    requires forall i :: 0 <= i < |s.order| ==> s.order[i] < |body|
  {
    exists start, first, other :: FirstWaitless(s.extended, body, start) &&
      LeastOrder(s.extended, body, Members(s.kept), start, first) && Permutation(|body|, first) &&
      LeastOrder(s.extended, body, Members(s.kept), !start, other) && Permutation(|body|, other) &&
      s.order == if ChunkTotal(Classes(body), other) < ChunkTotal(Classes(body), first) then other else first
  }

  ghost predicate FirstWaitless(g: DepGraph, body: seq<Op>, start: bool) {
    exists at :: 0 <= at < |g.deps| && at < |body| && g.deps[at] == [] && body[at].elevate == start &&
      forall i :: 0 <= i < at ==> g.deps[i] != []
  }

  ghost predicate Scheduled(body: seq<Op>, s: Schedule, conflicts: map<WatchPair, seq<WatchPair>>) {
    && GraphOf(s.recorded, body) && Acyclic(BodyDeps(body))
    && s.kept == Greedy(s.recorded, body, WatchList(s.recorded.byId, body, |body|))
    && MinimalConflicts(s.recorded, body, s.kept, WatchList(s.recorded.byId, body, |body|), conflicts)
    && Inferred(body, BodyDeps(body) + WatchEdges(Members(s.kept)), s.inferred, |body|)
    && Permutation(|body|, s.order) && FewestChunks(Rules(body, s), s.order)
    && GraphOk(s.extended, |body|) && DepEdges(s.extended) == Rules(body, s).dep && StartChosen(body, s)
  }

  datatype OrderResult =
    | Ordered(ops: seq<Op>, conflicts: map<WatchPair, seq<WatchPair>>)
    | Circular(loop: Option<seq<nat>>)

  /** The two least orders and the better of them. */
  method ChooseOrder(h: DepGraph, body: seq<Op>, kept: seq<WatchPair>) returns (order: seq<nat>, ghost start: bool,
      ghost first: seq<nat>, ghost other: seq<nat>)
    requires |body| > 0 && GraphOk(h, |body|) && AllSameClass(Classes(body), kept)
    requires NoCross(Classes(body), AllEdges(SystemOf(h, body, Members(kept)))) && Acyclic(DepEdges(h))
    ensures Permutation(|body|, order) && FewestChunks(SystemOf(h, body, Members(kept)), order)
    ensures FirstWaitless(h, body, start)
    ensures LeastOrder(h, body, Members(kept), start, first) && Permutation(|body|, first)
    ensures LeastOrder(h, body, Members(kept), !start, other) && Permutation(|body|, other)
    ensures order == if ChunkTotal(Classes(body), other) < ChunkTotal(Classes(body), first) then other else first
  {
    hide NoCross, Acyclic, LeastLevels, GraphOk, AllEdges, InOrder, LevelSorted, LeastOrder, FewestChunks, Wf,
         ChunkTotal;
    ghost var sys := SystemOf(h, body, Members(kept));
    GraphLists(h, |body|);
    SomeReady(h);
    var at := FirstReady(h);
    start := body[at].elevate;
    ghost var level, level2;
    order, level := OrderFor(h, body, body[at].elevate, kept);
    first := order;
    var second;
    second, level2 := OrderFor(h, body, !body[at].elevate, kept);
    other := second;
    KeptSound(body, kept);
    SystemWf(h, body, Members(kept));
    BetterIsFewest(sys, start, level, first, level2, other);
    var n2 := CountChunks(Classes(body), second);
    var n1 := CountChunks(Classes(body), order);
    if n2 < n1 {
      order := second;
    }
  }

  lemma {:induction false} KeptSound(body: seq<Op>, kept: seq<WatchPair>)
    requires AllSameClass(Classes(body), kept)
    ensures SoundSet(Classes(body), Members(kept))
  {
  }

  /** orderForPrivilegeSplit.  A plan is refused exactly when its recorded
      dependencies are circular, and the refusal names a real cycle. */
  method OrderForPrivilegeSplit(ops: seq<Op>) returns (r: OrderResult, ghost s: Schedule)
    ensures |ops| < 2 ==> r == Ordered(ops, map[])
    ensures |ops| >= 2 ==> (r.Circular? <==> !Acyclic(BodyDeps(ops[1..])))
    ensures |ops| >= 2 && r.Circular? ==> r.loop.Some? && DepLoop(BodyDeps(ops[1..]), r.loop.value)
    ensures |ops| >= 2 && r.Ordered? ==>
              Scheduled(ops[1..], s, r.conflicts) && r.ops == [ops[0]] + Picked(ops[1..], s.order)
  {
    hide NoCross, Acyclic, LeastLevels, GraphOk, InOrder, FewestChunks, MinimalConflicts, Greedy, Inferred,
         FitTogether, SoundList, BlockedCounts, LeastOrder, EdgeSet, DepLoop, GraphOf, FirstWaitless, DepEdges,
         BodyDeps;
    if |ops| < 2 {
      return Ordered(ops, map[]), *;
    }
    var body := ops[1..];
    var g := NewDepGraph(body);
    GraphDeps(g, body);
    GraphOfLists(g, body);
    var blocked, acyclic := CycleBlocked(g);
    if !acyclic {
      var loop := CycleError(g, blocked);
      return Circular(loop), *;
    }
    var kept, conflicts := ChooseWatches(g, body);
    KeptSame(Classes(body), kept);
    var h, edges := WithParentDirDeps(g, body, kept);
    KeptSound(body, kept);
    FitTogetherIff(g, body, Members(kept));
    InferenceKeeps(g, h, body, Members(kept), edges);
    var order, start, first, other := ChooseOrder(h, body, kept);
    s := Schedule(order, kept, edges, g, h);
    assert Rules(body, s) == SystemOf(h, body, Members(kept));
    assert StartChosen(body, s);
    r := Ordered([ops[0]] + Picked(body, order), conflicts);
  }

  lemma {:induction false} GraphOfLists(g: DepGraph, body: seq<Op>)
    requires GraphOf(g, body)
    ensures GraphOk(g, |body|) && |g.deps| == |body|
  {
  }

  lemma {:induction false} KeptSame(elev: seq<bool>, kept: seq<WatchPair>)
    requires SoundList(elev, kept)
    ensures AllSameClass(elev, kept)
  {
  }
}
