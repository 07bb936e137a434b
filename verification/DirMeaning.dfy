/** The directory rule in the ops' own fields: which ops create something where,
    which create directories, and which therefore come first. */
module DirMeaning {
  import opened Walks
  import opened Levels
  import opened Ops
  import opened Kahn
  import opened PathDeps
  import opened ChunkOrders
  import opened KeptWatches
  import opened ApplyOrder
  import opened ApplySort

  /** A present op that creates the directory at a. */
  predicate MakesDir(op: Op, a: CleanPath) {
    !op.absent && (op.kind.KindDir? || op.kind.KindSyncDir? || op.kind.KindEnsureDir?) && op.path == Some(a)
  }

  /** A present op that creates something at p: a file, directory or link at its
      own path, a config set at the path of a member. */
  predicate PutsAt(op: Op, p: CleanPath) {
    && !op.absent
    && if op.kind.KindConfigSet? then Some(p) in op.members
       else
         && op.path == Some(p)
         && (op.kind.KindFile? || op.kind.KindEnsureFile? || op.kind.KindDir? || op.kind.KindSyncDir? ||
             op.kind.KindEnsureDir? || op.kind.KindLink? || op.kind.KindLinkIfExists?)
  }

  /** p lies strictly inside a. */
  predicate Inside(p: CleanPath, a: CleanPath) {
    p.absolute == a.absolute && |a.parts| < |p.parts| && forall i :: 0 <= i < |a.parts| ==> a.parts[i] == p.parts[i]
  }

  /** Op dep creates a directory op self puts something into, and no op creates
      one further down on the way there. */
  ghost predicate ParentOf(ops: seq<Op>, self: nat, dep: nat) {
    && self < |ops| && dep < |ops| && dep != self
    && exists p, a :: InNearest(ops, self, dep, p, a)
  }

  ghost predicate InNearest(ops: seq<Op>, self: nat, dep: nat, p: CleanPath, a: CleanPath)
    requires self < |ops| && dep < |ops|
  {
    && PutsAt(ops[self], p) && MakesDir(ops[dep], a) && Inside(p, a)
    && forall d, b :: 0 <= d < |ops| && MakesDir(ops[d], b) && Inside(p, b) ==> |b.parts| <= |a.parts|
  }

  lemma {:induction false} InsideIff(p: CleanPath, a: CleanPath)
    ensures Inside(p, a) <==> StrictAncestor(a, p)
  {
  }

  lemma {:induction false} MakesDirIff(ops: seq<Op>, d: nat, a: CleanPath)
    ensures Provides(ops, d, a) <==> d < |ops| && MakesDir(ops[d], a)
  {
  }

  lemma {:induction false} PutsAtIff(op: Op, p: CleanPath)
    ensures PutsAt(op, p) <==> p in CreatedPaths(op)
  {
    if !op.absent && !op.kind.KindConfigSet? {
      assert p in Given([op.path]) <==> Some(p) in [op.path];
    }
  }

  lemma {:induction false} NearestIff(ops: seq<Op>, self: nat, dep: nat, p: CleanPath, a: CleanPath)
    requires self < |ops| && dep < |ops|
    ensures InNearest(ops, self, dep, p, a) <==>
              p in CreatedPaths(ops[self]) && NearestProvided(ops, p, a) && Provides(ops, dep, a)
  {
    PutsAtIff(ops[self], p);
    forall d: nat, b
      ensures Provides(ops, d, b) <==> d < |ops| && MakesDir(ops[d], b)
      ensures Inside(p, b) <==> StrictAncestor(b, p)
    {
      MakesDirIff(ops, d, b);
      InsideIff(p, b);
    }
    hide PutsAt, CreatedPaths, MakesDir, Provides, Inside, StrictAncestor;
  }

  /** The inference looks at exactly these pairs. */
  lemma {:induction false} ParentIff(ops: seq<Op>, self: nat, dep: nat)
    ensures Candidate(ops, self, dep) <==> ParentOf(ops, self, dep)
  {
    CandidateInRange(ops, self, dep);
    if self < |ops| && dep < |ops| {
      forall p, a
        ensures InNearest(ops, self, dep, p, a) <==>
                  p in CreatedPaths(ops[self]) && NearestProvided(ops, p, a) && Provides(ops, dep, a)
      {
        NearestIff(ops, self, dep, p, a);
      }
    }
    hide InNearest, CreatedPaths, NearestProvided, Provides;
  }

  /** Which edges are inferred: op i gets one from op dep exactly if dep creates
      the nearest directory i puts something into and the edge closes no cycle
      with the given edges and those of the ops before i. */
  lemma {:induction false} InferredMeans(ops: seq<Op>, given: Edges, edges: seq<ParentDirEdge>, i: nat, dep: nat)
    requires Inferred(ops, given, edges, |ops|)
    ensures ParentDirEdge(dep, i) in edges <==>
              ParentOf(ops, i, dep) && !Reach(given + EarlierEdges(edges, i), i, dep)
  {
    hide Inferred, Candidate, ParentOf, Reach, EarlierEdges;
    InferredExactly(ops, given, edges, i, dep);
    ParentIff(ops, i, dep);
  }

  /** An absent op neither waits for a directory nor makes one, and a link never
      makes one. */
  lemma {:induction false} AbsentAndLinks(ops: seq<Op>, self: nat, dep: nat)
    requires ParentOf(ops, self, dep)
    ensures !ops[self].absent && !ops[dep].absent && !ops[dep].kind.KindLink? && !ops[dep].kind.KindLinkIfExists?
  {
    var p, a :| InNearest(ops, self, dep, p, a);
  }

  lemma {:induction false} EdgeInSet(edges: seq<ParentDirEdge>, dep: nat, i: nat)
    requires ParentDirEdge(dep, i) in edges
    ensures (dep, i) in EdgeSet(edges)
  {
    assert (ParentDirEdge(dep, i).dep, ParentDirEdge(dep, i).dependent) in EdgeSet(edges);
  }

  lemma {:induction false} BothOrdered(e: Edges, more: Edges, order: seq<nat>, j: nat, k: nat)
    requires InOrder(e + more, order) && j < |order| && k < |order| && (order[j], order[k]) in more
    ensures j < k
  {
  }

  /** In the order Apply chooses, an op comes after the ops that create the
      nearest directory it puts something into, unless that would close a cycle
      with the dependencies, the kept watches and earlier such edges. */
  lemma {:induction false} DirectoryFirst(body: seq<Op>, s: Schedule, conflicts: map<WatchPair, seq<WatchPair>>,
                                          j: nat, k: nat)
    requires Scheduled(body, s, conflicts) && j < |s.order| && k < |s.order| && ParentOf(body, s.order[k], s.order[j])
    requires !Reach(BodyDeps(body) + WatchEdges(Members(s.kept)) + EarlierEdges(s.inferred, s.order[k]),
                    s.order[k], s.order[j])
    ensures j < k
  {
    ScheduledInOrder(body, s, conflicts);
    hide Scheduled, Inferred, InOrder, ParentOf, Reach, EarlierEdges, EdgeSet, BodyDeps;
    InferredMeans(body, BodyDeps(body) + WatchEdges(Members(s.kept)), s.inferred, s.order[k], s.order[j]);
    EdgeInSet(s.inferred, s.order[j], s.order[k]);
    BothOrdered(BodyDeps(body), EdgeSet(s.inferred), s.order, j, k);
  }

  lemma {:induction false} ScheduledInOrder(body: seq<Op>, s: Schedule, conflicts: map<WatchPair, seq<WatchPair>>)
    requires Scheduled(body, s, conflicts)
    ensures Inferred(body, BodyDeps(body) + WatchEdges(Members(s.kept)), s.inferred, |body|)
    ensures InOrder(BodyDeps(body) + EdgeSet(s.inferred), s.order)
  {
  }

  /** The same in a sorted run of one chunk, next to its dependencies. */
  lemma {:induction false} DirectoryFirstInRun(run: seq<Op>, edges: seq<ParentDirEdge>, order: seq<nat>, j: nat, k: nat)
    requires StableOrder(run, edges, order) && j < |order| && k < |order| && ParentOf(run, order[k], order[j])
    requires !Reach(RunEdges(run) + EarlierEdges(edges, order[k]), order[k], order[j])
    ensures j < k
  {
    StableInOrder(run, edges, order);
    hide StableOrder, Inferred, InOrder, ParentOf, Reach, EarlierEdges, EdgeSet, RunEdges;
    InferredMeans(run, RunEdges(run), edges, order[k], order[j]);
    EdgeInSet(edges, order[j], order[k]);
    BothOrdered(RunEdges(run), EdgeSet(edges), order, j, k);
  }

  lemma {:induction false} StableInOrder(run: seq<Op>, edges: seq<ParentDirEdge>, order: seq<nat>)
    requires StableOrder(run, edges, order)
    ensures Inferred(run, RunEdges(run), edges, |run|) && InOrder(RunEdges(run) + EdgeSet(edges), order)
  {
  }
}
