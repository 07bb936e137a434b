/** Parent-directory dependency inference, plan/pathdeps.go. */
module PathDeps {
  import opened Walks
  import opened Levels
  import opened LevelGraphs
  import opened Ops

  /** One inferred edge: op dependent applies after op dep. */
  datatype ParentDirEdge = ParentDirEdge(dep: nat, dependent: nat)

  /** A present op that creates a directory. */
  predicate CreatesDir(op: Op) {
    (op.kind.KindDir? || op.kind.KindSyncDir? || op.kind.KindEnsureDir?) && !op.absent && op.path.Some?
  }

  function Given(paths: seq<Option<CleanPath>>): (out: seq<CleanPath>)
    ensures forall p :: p in out <==> Some(p) in paths
  {
    if paths == [] then [] else
      var rest := Given(paths[..|paths| - 1]);
      match paths[|paths| - 1]
      case None => rest
      case Some(p) => rest + [p]
  }

  /** The destination paths a present consumer creates something at. */
  function CreatedPaths(op: Op): seq<CleanPath> {
    if op.absent then []
    else match op.kind
      case KindFile | KindEnsureFile | KindDir | KindSyncDir | KindEnsureDir | KindLink | KindLinkIfExists =>
        Given([op.path])
      case KindConfigSet => Given(op.members)
      case _ => []
  }

  /** path.Dir on a cleaned path: "/" and "." are their own parent. */
  function Dir(p: CleanPath): CleanPath {
    if p.parts == [] then p else p.(parts := p.parts[..|p.parts| - 1])
  }

  predicate StrictAncestor(a: CleanPath, p: CleanPath) {
    a.absolute == p.absolute && |a.parts| < |p.parts| && a.parts == p.parts[..|a.parts|]
  }

  /** Op d creates the directory at path a. */
  predicate Provides(ops: seq<Op>, d: nat, a: CleanPath) {
    d < |ops| && CreatesDir(ops[d]) && ops[d].path == Some(a)
  }

  /** a is the nearest strict ancestor of p that some op creates. */
  ghost predicate NearestProvided(ops: seq<Op>, p: CleanPath, a: CleanPath) {
    && StrictAncestor(a, p) && (exists d: nat :: Provides(ops, d, a))
    && forall d: nat, b :: Provides(ops, d, b) && StrictAncestor(b, p) ==> |b.parts| <= |a.parts|
  }

  /** Op self creates something right below the nearest directory that op dep
      creates. */
  ghost predicate Candidate(ops: seq<Op>, self: nat, dep: nat) {
    && self < |ops| && dep != self
    && exists p, a :: p in CreatedPaths(ops[self]) && NearestProvided(ops, p, a) && Provides(ops, dep, a)
  }

  /** providers lists, at each path, the ops of the first n that create it. */
  ghost predicate Providers(providers: map<CleanPath, seq<nat>>, ops: seq<Op>, n: nat) {
    && (forall d: nat, a :: d < n && Provides(ops, d, a) ==> a in providers && d in providers[a])
    && (forall a, k :: a in providers && 0 <= k < |providers[a]| ==>
         providers[a][k] < n && Provides(ops, providers[a][k], a))
    && (forall a :: a in providers ==> |providers[a]| > 0)
  }

  method DirProviders(ops: seq<Op>) returns (providers: map<CleanPath, seq<nat>>)
    ensures Providers(providers, ops, |ops|)
  {
    providers := map[];
    for i := 0 to |ops|
      invariant Providers(providers, ops, i)
    {
      if CreatesDir(ops[i]) {
        var p := ops[i].path.value;
        providers := providers[p := (if p in providers then providers[p] else []) + [i]];
      }
    }
  }

  lemma {:induction false} AncestorOfDir(a: CleanPath, p: CleanPath)
    requires p.parts != []
    ensures StrictAncestor(a, p) <==> a == Dir(p) || StrictAncestor(a, Dir(p))
  {
    if StrictAncestor(a, p) && |a.parts| == |p.parts| - 1 {
      assert a == Dir(p);
    } else if |a.parts| < |Dir(p).parts| {
      assert p.parts[..|a.parts|] == Dir(p).parts[..|a.parts|];
    }
  }

  /** nearestAncestor: walks up until a provided path or the top. */
  method NearestAncestor(path: CleanPath, providers: map<CleanPath, seq<nat>>, ghost ops: seq<Op>)
    returns (nearest: Option<CleanPath>)
    requires Providers(providers, ops, |ops|)
    ensures nearest.Some? ==> NearestProvided(ops, path, nearest.value)
    ensures nearest.None? ==> forall a :: !NearestProvided(ops, path, a)
  {
    var p := path;
    while true
      invariant p == path || StrictAncestor(p, path)
      invariant forall d: nat, b :: Provides(ops, d, b) && StrictAncestor(b, path) ==> StrictAncestor(b, p)
      decreases |p.parts|
    {
      var parent := Dir(p);
      if parent == p {
        return None;
      }
      AncestorOfDir(parent, p);
      UpOne(p, path);
      if parent in providers {
        assert Provides(ops, providers[parent][0], parent);
        forall d: nat, b | Provides(ops, d, b) && StrictAncestor(b, path)
          ensures |b.parts| <= |parent.parts|
        {
          AncestorOfDir(b, p);
        }
        return Some(parent);
      }
      forall d: nat, b | Provides(ops, d, b) && StrictAncestor(b, path)
        ensures StrictAncestor(b, parent)
      {
        AncestorOfDir(b, p);
      }
      p := parent;
    }
  }

  lemma {:induction false} UpOne(p: CleanPath, path: CleanPath)
    requires p.parts != [] && (p == path || StrictAncestor(p, path))
    ensures StrictAncestor(Dir(p), path)
  {
    assert Dir(p).parts == path.parts[..|p.parts|][..|p.parts| - 1];
  }

  /** nearestProviders, without duplicates and never the op itself. */
  method NearestProviders(ops: seq<Op>, self: nat, providers: map<CleanPath, seq<nat>>) returns (deps: seq<nat>)
    requires self < |ops| && Providers(providers, ops, |ops|)
    ensures Distinct(deps) && forall dep: nat :: dep in deps <==> Candidate(ops, self, dep)
  {
    deps := [];
    var paths := CreatedPaths(ops[self]);
    for k := 0 to |paths|
      invariant Distinct(deps)
      invariant forall dep: nat :: dep in deps <==> dep != self && FoundIn(ops, paths[..k], dep)
    {
      assert paths[..k + 1] == paths[..k] + [paths[k]];
      var at := NearestAncestor(paths[k], providers, ops);
      if at.Some? {
        deps := AddProviders(deps, self, providers[at.value]);
        UniqueNearest(ops, paths[k], at.value);
      }
    }
    assert paths[..|paths|] == paths;
  }

  ghost predicate FoundIn(ops: seq<Op>, paths: seq<CleanPath>, dep: nat) {
    exists p, a :: p in paths && NearestProvided(ops, p, a) && Provides(ops, dep, a)
  }

  lemma {:induction false} UniqueNearest(ops: seq<Op>, p: CleanPath, a: CleanPath)
    requires NearestProvided(ops, p, a)
    ensures forall b :: NearestProvided(ops, p, b) ==> b == a
  {
    forall b | NearestProvided(ops, p, b)
      ensures b == a
    {
      var d: nat :| Provides(ops, d, b);
      var c: nat :| Provides(ops, c, a);
    }
  }

  method AddProviders(was: seq<nat>, self: nat, found: seq<nat>) returns (deps: seq<nat>)
    requires Distinct(was)
    ensures Distinct(deps) && forall dep: nat :: dep in deps <==> dep in was || (dep in found && dep != self)
  {
    deps := was;
    for k := 0 to |found|
      invariant Distinct(deps) && forall dep: nat :: dep in deps <==> dep in was || (dep in found[..k] && dep != self)
    {
      assert found[..k + 1] == found[..k] + [found[k]];
      if found[k] != self && found[k] !in deps {
        deps := deps + [found[k]];
      }
    }
    assert found[..|found|] == found;
  }

  /** Breadth-first reachability over the caller's edges plus the accepted
      ones; the stamp-marked scratch space is reused between searches. */
  class Reacher {
    const next: seq<seq<nat>>
    var extra: seq<seq<nat>>
    var seen: seq<int>
    var stamp: int
    var queue: seq<nat>

    ghost predicate Valid()
      reads this
    {
      && Bounded(next, |next|) && Bounded(extra, |next|) && |seen| == |next|
      && forall v :: 0 <= v < |seen| ==> seen[v] <= stamp
    }

    ghost function Edges(): Edges
      reads this
    {
      ListEdges(next) + ListEdges(extra)
    }

    constructor (next: seq<seq<nat>>)
      requires Bounded(next, |next|)
      ensures Valid() && this.next == next && extra == seq(|next|, _ => [])
    {
      this.next, extra, seen, stamp, queue := next, seq(|next|, _ => []), seq(|next|, _ => 0), 0, [];
    }

    /** Exactly the ops marked in this search are queued, each once, and each
        is reached from from. */
    ghost predicate Searching(from: nat)
      reads this
    {
      && Valid() && |queue| > 0 && queue[0] == from && Distinct(queue)
      && (forall k :: 0 <= k < |queue| ==> queue[k] < |next| && Reach(Edges(), from, queue[k]))
      && (forall v: nat :: v < |next| ==> (seen[v] == stamp <==> v in queue))
    }

    /** Marks and queues v, unless to was found already or v is seen. */
    method Visit(from: nat, to: nat, u: nat, v: nat, was: bool) returns (found: bool)
      requires Searching(from) && u in queue && (u, v) in Edges() && v < |next|
      requires was ==> to in queue
      requires !was ==> (to in queue ==> to == from)
      modifies this`seen, this`queue
      ensures Searching(from) && old(queue) <= queue
      ensures (was ==> found) && (found ==> to in queue) && (!found ==> v in queue && (to in queue ==> to == from))
    {
      found := was;
      if found || seen[v] == stamp {
        return;
      }
      var k :| 0 <= k < |queue| && queue[k] == u;
      ReachThenEdge(Edges(), from, u, v);
      seen := seen[v := stamp];
      found := v == to;
      queue := queue + [v];
    }

    /** Visits every successor of u, unless to turns up. */
    method Expand(from: nat, to: nat, u: nat) returns (found: bool)
      requires Searching(from) && u in queue && (to in queue ==> to == from)
      modifies this`seen, this`queue
      ensures Searching(from) && old(queue) <= queue && (found ==> to in queue)
      ensures !found ==> (to in queue ==> to == from) && forall v: nat :: (u, v) in Edges() ==> v in queue
    {
      hide Searching;
      SearchFacts(from, u);
      found := false;
      for k := 0 to |next[u]|
        invariant Searching(from) && old(queue) <= queue && u in queue && (found ==> to in queue)
        invariant !found ==> (to in queue ==> to == from) && forall j :: 0 <= j < k ==> next[u][j] in queue
      {
        EdgesFrom(next, extra, |next|, u);
        found := Visit(from, to, u, next[u][k], found);
      }
      for k := 0 to |extra[u]|
        invariant Searching(from) && old(queue) <= queue && u in queue && (found ==> to in queue)
        invariant !found ==> (to in queue ==> to == from) && forall j :: 0 <= j < |next[u]| ==> next[u][j] in queue
        invariant !found ==> forall j :: 0 <= j < k ==> extra[u][j] in queue
      {
        EdgesFrom(next, extra, |next|, u);
        found := Visit(from, to, u, extra[u][k], found);
      }
      EdgesFrom(next, extra, |next|, u);
    }

    lemma {:induction false} SearchFacts(from: nat, u: nat)
      requires Searching(from) && u in queue
      ensures u < |next| == |extra| && Bounded(next, |next|) && Bounded(extra, |next|)
    {
      var k :| 0 <= k < |queue| && queue[k] == u;
    }

    /** reaches: whether to is reachable from from. */
    method Reaches(from: nat, to: nat) returns (found: bool)
      requires Valid() && from < |next| && to < |next|
      modifies this`seen, this`stamp, this`queue
      ensures Valid() && (found <==> Reach(Edges(), from, to))
    {
      stamp := stamp + 1;
      queue := [from];
      seen := seen[from := stamp];
      ReachRefl(Edges(), from);
      found := false;
      var k := 0;
      while k < |queue| && !found
        invariant Searching(from) && 0 <= k <= |queue| && (found ==> to in queue)
        invariant !found ==> (to in queue ==> to == from)
        invariant !found ==> Explored(Edges(), queue, k)
        decreases if found then 0 else 1, |next| - k
      {
        DistinctBelow(queue, |next|);
        ghost var was, u := queue, queue[k];
        found := Expand(from, to, queue[k]);
        k := k + 1;
        if !found {
          ExploredNext(Edges(), was, queue, k - 1);
        }
      }
      if !found {
        FinishedReach(Edges(), from, to, queue);
      } else {
        var j :| 0 <= j < |queue| && queue[j] == to;
      }
      found := found || from == to;
    }
  }

  /** The successors of the first k queued ops are queued. */
  ghost predicate Explored(e: Edges, queue: seq<nat>, k: nat) {
    forall j: nat, v: nat :: j < k && j < |queue| && (queue[j], v) in e ==> v in queue
  }

  lemma {:induction false} ExploredNext(e: Edges, was: seq<nat>, queue: seq<nat>, k: nat)
    requires was <= queue && k < |was| && Explored(e, was, k)
    requires forall v: nat :: (was[k], v) in e ==> v in queue
    ensures Explored(e, queue, k + 1)
  {
    forall j: nat, v: nat | j < k + 1 && (queue[j], v) in e
      ensures v in queue
    {
      if j < k {
        assert was[j] == queue[j] && v in was;
      }
    }
  }

  lemma {:induction false} FinishedReach(e: Edges, from: nat, to: nat, queue: seq<nat>)
    requires |queue| > 0 && queue[0] == from && (to in queue ==> to == from)
    requires Explored(e, queue, |queue|)
    ensures Reach(e, from, to) <==> from == to
  {
    ReachRefl(e, from);
    if Reach(e, from, to) {
      var s: set<nat> := set v: nat | v in queue;
      forall u: nat, v: nat | (u, v) in e && u in s
        ensures v in s
      {
        var j: nat :| j < |queue| && queue[j] == u;
      }
      ReachClosed(e, s, from, to);
    }
  }

  lemma {:induction false} EdgesFrom(next: seq<seq<nat>>, extra: seq<seq<nat>>, n: nat, u: nat)
    requires Bounded(next, n) && Bounded(extra, n) && u < n
    ensures forall j :: 0 <= j < |next[u]| ==> next[u][j] < n && (u, next[u][j]) in ListEdges(next) + ListEdges(extra)
    ensures forall j :: 0 <= j < |extra[u]| ==>
              extra[u][j] < n && (u, extra[u][j]) in ListEdges(next) + ListEdges(extra)
    ensures forall v: nat :: (u, v) in ListEdges(next) + ListEdges(extra) ==> v in next[u] || v in extra[u]
  {
    forall j | 0 <= j < |next[u]|
      ensures next[u][j] < n && (u, next[u][j]) in ListEdges(next)
    {
      assert next[u][j] in next[u];
    }
    forall j | 0 <= j < |extra[u]|
      ensures extra[u][j] < n && (u, extra[u][j]) in ListEdges(extra)
    {
      assert extra[u][j] in extra[u];
    }
  }

  ghost function EdgeSet(edges: seq<ParentDirEdge>): Edges {
    set e | e in edges :: (e.dep, e.dependent)
  }

  /** edges were accepted one after the other, each closing no cycle with the
      given edges and the ones accepted before it. */
  ghost predicate AcceptedInOrder(given: Edges, edges: seq<ParentDirEdge>) {
    forall k :: 0 <= k < |edges| ==>
      !Reach(given + EdgeSet(edges[..k]), edges[k].dependent, edges[k].dep)
  }

  /** The edges of the consumers before i. */
  ghost function EarlierEdges(edges: seq<ParentDirEdge>, i: nat): Edges {
    set e | e in edges && e.dependent < i :: (e.dep, e.dependent)
  }

  ghost predicate InConsumerOrder(edges: seq<ParentDirEdge>) {
    forall j, k :: 0 <= j < k < |edges| ==> edges[j].dependent <= edges[k].dependent
  }

  /** What the inference promises of its edges for the first n consumers: a
      candidate is dropped only for a cycle with the edges of the consumers
      before its own. */
  ghost predicate Inferred(ops: seq<Op>, given: Edges, edges: seq<ParentDirEdge>, n: nat) {
    && AcceptedInOrder(given, edges) && InConsumerOrder(edges)
    && (forall k :: 0 <= k < |edges| ==> edges[k].dependent < n && Candidate(ops, edges[k].dependent, edges[k].dep))
    && (forall i: nat, dep: nat :: i < n && Candidate(ops, i, dep) && ParentDirEdge(dep, i) !in edges ==>
          Reach(given + EarlierEdges(edges, i), i, dep))
  }

  lemma {:induction false} EarlierSubset(edges: seq<ParentDirEdge>, i: nat)
    ensures EarlierEdges(edges, i) <= EdgeSet(edges)
  {
  }

  lemma {:induction false} EarlierNext(edges: seq<ParentDirEdge>, e: ParentDirEdge, i: nat)
    requires i <= e.dependent
    ensures EarlierEdges(edges + [e], i) == EarlierEdges(edges, i)
  {
    assert forall x :: x in edges + [e] <==> x in edges || x == e;
  }

  /** A walk that starts at i needs no edge into i. */
  lemma {:induction false} WalkWithout(e: Edges, f: Edges, i: nat, a: nat, x: nat, k: nat)
    requires ReachN(e, a, x, k) && forall u: nat, v: nat :: (u, v) in e && v != i ==> (u, v) in f
    ensures Reach(f, a, x) || Reach(f, i, x)
    decreases k
  {
    ReachRefl(f, x);
    if k > 0 {
      var c :| (a, c) in e && ReachN(e, c, x, k - 1);
      WalkWithout(e, f, i, c, x, k - 1);
      if c != i && Reach(f, c, x) {
        EdgeThenReach(f, a, c, x);
      }
    }
  }

  /** Of the edges up to consumer i, those into i close no cycle for it. */
  lemma {:induction false} DropsEarlier(given: Edges, edges: seq<ParentDirEdge>, i: nat, dep: nat)
    requires Reach(given + EdgeSet(edges), i, dep) && forall k :: 0 <= k < |edges| ==> edges[k].dependent <= i
    ensures Reach(given + EarlierEdges(edges, i), i, dep)
  {
    var e, f := given + EdgeSet(edges), given + EarlierEdges(edges, i);
    forall u: nat, v: nat | (u, v) in e && v != i
      ensures (u, v) in f
    {
      if (u, v) !in given {
        var x :| x in edges && x.dep == u && x.dependent == v;
      }
    }
    hide EdgeSet, EarlierEdges;
    var k: nat :| ReachN(e, i, dep, k);
    WalkWithout(e, f, i, i, dep, k);
  }

  /** So which edges there are is decided consumer by consumer: a candidate is
      an edge exactly if it closes no cycle with the given edges and those of
      the consumers before. */
  lemma {:induction false} InferredExactly(ops: seq<Op>, given: Edges, edges: seq<ParentDirEdge>, i: nat, dep: nat)
    requires Inferred(ops, given, edges, |ops|)
    ensures ParentDirEdge(dep, i) in edges <==>
              Candidate(ops, i, dep) && !Reach(given + EarlierEdges(edges, i), i, dep)
  {
    hide Candidate, Reach, EdgeSet, EarlierEdges;
    var e := ParentDirEdge(dep, i);
    if e in edges {
      var k: nat :| k < |edges| && edges[k] == e;
      PrefixHolds(edges, k);
      if Reach(given + EarlierEdges(edges, i), i, dep) {
        ReachMono(given + EarlierEdges(edges, i), given + EdgeSet(edges[..k]), i, dep);
      }
    }
    CandidateInRange(ops, i, dep);
  }

  lemma {:induction false} CandidateInRange(ops: seq<Op>, i: nat, dep: nat)
    ensures Candidate(ops, i, dep) ==> i < |ops| && dep < |ops|
  {
  }

  /** What was accepted before an edge includes all edges of earlier consumers. */
  lemma {:induction false} PrefixHolds(edges: seq<ParentDirEdge>, k: nat)
    requires InConsumerOrder(edges) && k < |edges|
    ensures EarlierEdges(edges, edges[k].dependent) <= EdgeSet(edges[..k])
  {
    forall x | x in EarlierEdges(edges, edges[k].dependent)
      ensures x in EdgeSet(edges[..k])
    {
      var y :| y in edges && y.dependent < edges[k].dependent && x == (y.dep, y.dependent);
      var j: nat :| j < |edges| && edges[j] == y;
      assert edges[..k][j] == y;
    }
  }

  lemma {:induction false} LastAccepted(given: Edges, edges: seq<ParentDirEdge>)
    requires |edges| > 0 && AcceptedInOrder(given, edges)
    ensures var rest, last := edges[..|edges| - 1], edges[|edges| - 1];
            && AcceptedInOrder(given, rest)
            && given + EdgeSet(edges) == given + EdgeSet(rest) + {(last.dep, last.dependent)}
            && !Reach(given + EdgeSet(rest), last.dependent, last.dep)
  {
    var rest, last := edges[..|edges| - 1], edges[|edges| - 1];
    assert edges == rest + [last];
    EdgeSetNext(rest, last);
    hide EdgeSet, Reach;
    assert given + (EdgeSet(rest) + {(last.dep, last.dependent)}) ==
           given + EdgeSet(rest) + {(last.dep, last.dependent)};
    forall k | 0 <= k < |rest|
      ensures !Reach(given + EdgeSet(rest[..k]), rest[k].dependent, rest[k].dep)
    {
      assert edges[..k] == rest[..k] && edges[k] == rest[k];
    }
  }

  lemma {:induction false} EdgeSetNext(edges: seq<ParentDirEdge>, e: ParentDirEdge)
    ensures EdgeSet(edges + [e]) == EdgeSet(edges) + {(e.dep, e.dependent)}
  {
    assert forall x :: x in edges + [e] <==> x in edges || x == e;
  }

  /** Accepted edges merge no strongly connected components. */
  lemma {:induction false} AcceptedHarmless(given: Edges, edges: seq<ParentDirEdge>, a: nat, b: nat)
    requires AcceptedInOrder(given, edges)
    requires Reach(given + EdgeSet(edges), a, b) && Reach(given + EdgeSet(edges), b, a)
    ensures Reach(given, a, b) && Reach(given, b, a)
    decreases |edges|
  {
    hide Reach, AcceptedInOrder;
    if edges == [] {
      assert given + EdgeSet([]) == given;
    } else {
      var rest, last := edges[..|edges| - 1], edges[|edges| - 1];
      LastAccepted(given, edges);
      hide EdgeSet;
      NoNewComponent(given + EdgeSet(rest), last.dep, last.dependent, a, b);
      AcceptedHarmless(given, rest, a, b);
    }
  }

  /** A graph is acyclic with the accepted edges exactly when it is without. */
  lemma {:induction false} AcceptedAcyclic(given: Edges, edges: seq<ParentDirEdge>)
    requires AcceptedInOrder(given, edges)
    ensures Acyclic(given + EdgeSet(edges)) <==> Acyclic(given)
    decreases |edges|
  {
    hide Reach, AcceptedInOrder, Acyclic;
    if edges == [] {
      assert given + EdgeSet([]) == given;
    } else {
      var rest, last := edges[..|edges| - 1], edges[|edges| - 1];
      LastAccepted(given, edges);
      hide EdgeSet;
      AcceptedAcyclic(given, rest);
      if Acyclic(given) {
        AcyclicWithEdge(given + EdgeSet(rest), last.dep, last.dependent);
      } else if Acyclic(given + EdgeSet(edges)) {
        AcyclicMono(given, given + EdgeSet(edges));
      }
    }
  }

  /** A dropped candidate would close a cycle with the given and the accepted
      edges together. */
  lemma {:induction false} DroppedCloses(ops: seq<Op>, given: Edges, edges: seq<ParentDirEdge>, i: nat, dep: nat)
    requires Inferred(ops, given, edges, |ops|) && Candidate(ops, i, dep) && ParentDirEdge(dep, i) !in edges
    ensures !Acyclic(given + EdgeSet(edges) + {(dep, i)})
  {
    EarlierSubset(edges, i);
    ReachMono(given + EarlierEdges(edges, i), given + EdgeSet(edges), i, dep);
    EdgeClosesCycle(given + EdgeSet(edges), dep, i);
  }

  /** The accepted edges as the reacher holds them. */
  ghost predicate HoldsEdges(extra: seq<seq<nat>>, edges: seq<ParentDirEdge>) {
    ListEdges(extra) == EdgeSet(edges)
  }

  lemma {:induction false} HoldsNext(extra: seq<seq<nat>>, edges: seq<ParentDirEdge>, dep: nat, i: nat)
    requires HoldsEdges(extra, edges) && dep < |extra|
    ensures HoldsEdges(extra[dep := extra[dep] + [i]], edges + [ParentDirEdge(dep, i)])
  {
    EdgeSetNext(edges, ParentDirEdge(dep, i));
    var more := extra[dep := extra[dep] + [i]];
    forall u: nat, v: nat
      ensures (u, v) in ListEdges(more) <==> (u, v) in ListEdges(extra) + {(dep, i)}
    {
    }
  }

  /** The first k candidates deps of consumer i have been decided. */
  ghost predicate Decided(given: Edges, edges: seq<ParentDirEdge>, i: nat, deps: seq<nat>, k: nat) {
    forall j :: 0 <= j < k && j < |deps| && ParentDirEdge(deps[j], i) !in edges ==>
      Reach(given + EarlierEdges(edges, i), i, deps[j])
  }

  /** The inference so far, for the consumers before i. */
  ghost predicate InferredBefore(ops: seq<Op>, given: Edges, edges: seq<ParentDirEdge>, i: nat) {
    forall c: nat, dep: nat :: c < i && Candidate(ops, c, dep) && ParentDirEdge(dep, c) !in edges ==>
      Reach(given + EarlierEdges(edges, c), c, dep)
  }

  ghost predicate AllCandidates(ops: seq<Op>, edges: seq<ParentDirEdge>, n: nat) {
    && InConsumerOrder(edges)
    && forall k :: 0 <= k < |edges| ==> edges[k].dependent < n && Candidate(ops, edges[k].dependent, edges[k].dep)
  }

  lemma {:induction false} AcceptOrder(given: Edges, edges: seq<ParentDirEdge>, e: ParentDirEdge)
    requires AcceptedInOrder(given, edges) && !Reach(given + EdgeSet(edges), e.dependent, e.dep)
    ensures AcceptedInOrder(given, edges + [e])
  {
    hide EdgeSet, Reach;
    var more := edges + [e];
    forall m | 0 <= m < |more|
      ensures !Reach(given + EdgeSet(more[..m]), more[m].dependent, more[m].dep)
    {
      if m < |edges| {
        assert more[..m] == edges[..m] && more[m] == edges[m];
      } else {
        assert more[..m] == edges;
      }
    }
  }

  lemma {:induction false} AcceptBefore(ops: seq<Op>, given: Edges, edges: seq<ParentDirEdge>, i: nat, e: ParentDirEdge)
    requires InferredBefore(ops, given, edges, i) && e.dependent == i
    ensures InferredBefore(ops, given, edges + [e], i)
  {
    hide EarlierEdges, Reach, Candidate;
    forall c: nat, dep: nat | c < i && Candidate(ops, c, dep) && ParentDirEdge(dep, c) !in edges + [e]
      ensures Reach(given + EarlierEdges(edges + [e], c), c, dep)
    {
      EarlierNext(edges, e, c);
    }
  }

  lemma {:induction false} AcceptDecided(given: Edges, edges: seq<ParentDirEdge>, i: nat, deps: seq<nat>, k: nat)
    requires Decided(given, edges, i, deps, k) && k < |deps|
    ensures Decided(given, edges + [ParentDirEdge(deps[k], i)], i, deps, k + 1)
  {
    hide EarlierEdges, Reach;
    EarlierNext(edges, ParentDirEdge(deps[k], i), i);
    assert (edges + [ParentDirEdge(deps[k], i)])[|edges|] == ParentDirEdge(deps[k], i);
  }

  lemma {:induction false} AcceptNext(ops: seq<Op>, given: Edges, edges: seq<ParentDirEdge>, i: nat, deps: seq<nat>,
                                      k: nat)
    requires AcceptedInOrder(given, edges) && AllCandidates(ops, edges, i + 1) && InferredBefore(ops, given, edges, i)
    requires Decided(given, edges, i, deps, k) && k < |deps| && Candidate(ops, i, deps[k])
    requires !Reach(given + EdgeSet(edges), i, deps[k])
    ensures var more := edges + [ParentDirEdge(deps[k], i)];
            AcceptedInOrder(given, more) && AllCandidates(ops, more, i + 1) && InferredBefore(ops, given, more, i) &&
            Decided(given, more, i, deps, k + 1)
  {
    hide AcceptedInOrder, InferredBefore, Decided, EdgeSet, Reach, Candidate;
    AcceptOrder(given, edges, ParentDirEdge(deps[k], i));
    AcceptBefore(ops, given, edges, i, ParentDirEdge(deps[k], i));
    AcceptDecided(given, edges, i, deps, k);
  }

  /** InferParentDirDeps: next lists the caller's edges leaving each op. */
  method InferParentDirDeps(ops: seq<Op>, next: seq<seq<nat>>) returns (edges: seq<ParentDirEdge>)
    requires |next| == |ops| && Bounded(next, |next|)
    ensures Inferred(ops, ListEdges(next), edges, |ops|)
  {
    hide EdgeSet, ListEdges, Reach, Candidate, Providers, AcceptedInOrder, AllCandidates, InferredBefore, Decided;
    ghost var given := ListEdges(next);
    edges := [];
    NothingInferred(ops, given);
    var providers := DirProviders(ops);
    if |providers| == 0 {
      NoCandidates(ops, providers, given);
      return;
    }
    var r := new Reacher(next);
    NoneHeld(r.extra);
    for i := 0 to |ops|
      invariant r.Valid() && r.next == next && HoldsEdges(r.extra, edges) && fresh(r)
      invariant AcceptedInOrder(given, edges) && AllCandidates(ops, edges, i) && InferredBefore(ops, given, edges, i)
    {
      var deps := NearestProviders(ops, i, providers);
      CandidatesInRange(ops, i, deps);
      WiderRange(ops, given, edges, i, deps);
      for k := 0 to |deps|
        invariant r.Valid() && r.next == next && HoldsEdges(r.extra, edges) && fresh(r)
        invariant AcceptedInOrder(given, edges) && AllCandidates(ops, edges, i + 1)
        invariant InferredBefore(ops, given, edges, i)
        invariant Decided(given, edges, i, deps, k)
      {
        var closes := r.Reaches(i, deps[k]);
        if closes {
          CandidatesBelow(ops, edges, i + 1);
          DropNext(given, edges, i, deps, k);
          continue;
        }
        AcceptNext(ops, given, edges, i, deps, k);
        HoldsNext(r.extra, edges, deps[k], i);
        r.extra := r.extra[deps[k] := r.extra[deps[k]] + [i]];
        edges := edges + [ParentDirEdge(deps[k], i)];
      }
      ConsumerDone(ops, given, edges, i, deps);
    }
    InferenceDone(ops, given, edges);
  }

  lemma {:induction false} CandidatesBelow(ops: seq<Op>, edges: seq<ParentDirEdge>, n: nat)
    requires AllCandidates(ops, edges, n)
    ensures forall k :: 0 <= k < |edges| ==> edges[k].dependent < n
  {
  }

  lemma {:induction false} NoneHeld(extra: seq<seq<nat>>)
    requires forall u :: 0 <= u < |extra| ==> extra[u] == []
    ensures HoldsEdges(extra, [])
  {
  }

  lemma {:induction false} NothingInferred(ops: seq<Op>, given: Edges)
    ensures AcceptedInOrder(given, []) && AllCandidates(ops, [], 0) && InferredBefore(ops, given, [], 0)
  {
  }

  lemma {:induction false} NoCandidates(ops: seq<Op>, providers: map<CleanPath, seq<nat>>, given: Edges)
    requires Providers(providers, ops, |ops|) && |providers| == 0
    ensures Inferred(ops, given, [], |ops|)
  {
  }

  lemma {:induction false} CandidatesInRange(ops: seq<Op>, i: nat, deps: seq<nat>)
    requires forall dep: nat :: dep in deps <==> Candidate(ops, i, dep)
    ensures forall k :: 0 <= k < |deps| ==> deps[k] < |ops| && Candidate(ops, i, deps[k])
  {
    forall k | 0 <= k < |deps|
      ensures deps[k] < |ops| && Candidate(ops, i, deps[k])
    {
      assert deps[k] in deps;
    }
  }

  lemma {:induction false} WiderRange(ops: seq<Op>, given: Edges, edges: seq<ParentDirEdge>, i: nat, deps: seq<nat>)
    requires AllCandidates(ops, edges, i)
    ensures AllCandidates(ops, edges, i + 1) && Decided(given, edges, i, deps, 0)
  {
  }

  lemma {:induction false} DropNext(given: Edges, edges: seq<ParentDirEdge>, i: nat, deps: seq<nat>, k: nat)
    requires Decided(given, edges, i, deps, k) && k < |deps| && Reach(given + EdgeSet(edges), i, deps[k])
    requires forall j :: 0 <= j < |edges| ==> edges[j].dependent <= i
    ensures Decided(given, edges, i, deps, k + 1)
  {
    hide EarlierEdges, EdgeSet, Reach;
    DropsEarlier(given, edges, i, deps[k]);
  }

  lemma {:induction false} ConsumerDone(ops: seq<Op>, given: Edges, edges: seq<ParentDirEdge>, i: nat, deps: seq<nat>)
    requires InferredBefore(ops, given, edges, i) && Decided(given, edges, i, deps, |deps|)
    requires forall dep: nat :: dep in deps <==> Candidate(ops, i, dep)
    ensures InferredBefore(ops, given, edges, i + 1)
  {
    hide Candidate, Reach, EarlierEdges;
    forall c: nat, dep: nat | c < i + 1 && Candidate(ops, c, dep) && ParentDirEdge(dep, c) !in edges
      ensures Reach(given + EarlierEdges(edges, c), c, dep)
    {
      if c == i {
        var j :| 0 <= j < |deps| && deps[j] == dep;
      }
    }
  }

  lemma {:induction false} InferenceDone(ops: seq<Op>, given: Edges, edges: seq<ParentDirEdge>)
    requires AcceptedInOrder(given, edges) && AllCandidates(ops, edges, |ops|)
    requires InferredBefore(ops, given, edges, |ops|)
    ensures Inferred(ops, given, edges, |ops|)
  {
  }

  lemma {:induction false} NoEdgesYet(waiters: seq<seq<nat>>)
    ensures forall edges: seq<ParentDirEdge> :: ListEdges(waiters) == ListEdges(waiters) + EdgeSet(edges[..0])
  {
  }

  lemma {:induction false} EdgesNamed(body: seq<Op>, given: Edges, edges: seq<ParentDirEdge>)
    requires Inferred(body, given, edges, |body|)
    ensures forall k :: 0 <= k < |edges| ==> edges[k].dep < |body| && edges[k].dependent < |body|
  {
  }
}
