/** The chunk-level constraint system, stated on its own: what a level
    assignment must satisfy, when one exists, and what one more watch does to
    it.  Nothing here depends on how the scheduler computes anything. */
module Levels {
  import opened Walks

  /** A change-gated op watching an op of its own privilege class. */
  datatype WatchPair = WatchPair(gated: nat, watched: nat)

  function Members(watches: seq<WatchPair>): set<WatchPair> {
    set p | p in watches
  }

  type Edges = set<(nat, nat)>

  /** The classes of n ops, the dependency edges (dep -> dependent) and the
      watches kept together with them. */
  datatype Constraints = Constraints(elev: seq<bool>, dep: Edges, ws: set<WatchPair>)

  /** A watch is an edge each way. */
  ghost function WatchEdges(ws: set<WatchPair>): Edges {
    (set p | p in ws :: (p.gated, p.watched)) + (set p | p in ws :: (p.watched, p.gated))
  }

  ghost function AllEdges(g: Constraints): Edges {
    g.dep + WatchEdges(g.ws)
  }

  ghost predicate InRange(e: Edges, n: nat) {
    forall u, v :: (u, v) in e ==> u < n && v < n
  }

  ghost predicate SameClass(elev: seq<bool>, p: WatchPair) {
    p.gated < |elev| && p.watched < |elev| && elev[p.gated] == elev[p.watched]
  }

  ghost predicate Wf(g: Constraints) {
    InRange(g.dep, |g.elev|) && forall p :: p in g.ws ==> SameClass(g.elev, p)
  }

  ghost predicate Crosses(elev: seq<bool>, u: nat, v: nat) {
    u < |elev| && v < |elev| && elev[u] != elev[v]
  }

  /** Even levels have class start, odd levels the other. */
  ghost predicate RightParity(elev: seq<bool>, start: bool, level: seq<int>) {
    |level| == |elev| &&
    forall i :: 0 <= i < |level| ==> 0 <= level[i] && (level[i] % 2 == 0 <==> elev[i] == start)
  }

  /** A dependency never sits above its dependent, and sits strictly below one
      of the other class. */
  ghost predicate DepsRise(elev: seq<bool>, dep: Edges, level: seq<int>)
    requires |level| == |elev|
  {
    forall u, v :: (u, v) in dep && u < |level| && v < |level| ==>
      level[u] <= level[v] && (elev[u] != elev[v] ==> level[u] < level[v])
  }

  /** The two ends of a watch share a level. */
  ghost predicate WatchesLevel(ws: set<WatchPair>, level: seq<int>) {
    forall p :: p in ws && p.gated < |level| && p.watched < |level| ==> level[p.gated] == level[p.watched]
  }

  /** What the chunk levels are asked to satisfy. */
  ghost predicate ValidLevels(g: Constraints, start: bool, level: seq<int>) {
    RightParity(g.elev, start, level) && DepsRise(g.elev, g.dep, level) && WatchesLevel(g.ws, level)
  }

  /** No strongly connected component holds a cross-class edge. */
  ghost predicate NoCross(elev: seq<bool>, e: Edges) {
    forall u, v :: (u, v) in e && Crosses(elev, u, v) ==> !Reach(e, v, u)
  }

  /** A walk from a to b that uses a cross-class edge. */
  ghost predicate CrossWalk(elev: seq<bool>, e: Edges, a: nat, b: nat) {
    exists x, y :: (x, y) in e && Crosses(elev, x, y) && Reach(e, a, x) && Reach(e, y, b)
  }

  /** Watch p, added to e, would close a cycle with a cross-class edge. */
  ghost predicate Closes(elev: seq<bool>, e: Edges, p: WatchPair) {
    CrossWalk(elev, e, p.gated, p.watched) || CrossWalk(elev, e, p.watched, p.gated)
  }

  lemma {:induction false} WatchEdgeIff(ws: set<WatchPair>, u: nat, v: nat)
    ensures (u, v) in WatchEdges(ws) <==> WatchPair(u, v) in ws || WatchPair(v, u) in ws
  {
    if WatchPair(u, v) in ws {
      assert (WatchPair(u, v).gated, WatchPair(u, v).watched) in WatchEdges(ws);
    }
    if WatchPair(v, u) in ws {
      assert (WatchPair(v, u).watched, WatchPair(v, u).gated) in WatchEdges(ws);
    }
  }

  lemma {:induction false} AllEdgesInRange(g: Constraints)
    requires Wf(g)
    ensures InRange(AllEdges(g), |g.elev|)
  {
  }

  lemma {:induction false} WatchEdgesMono(ws: set<WatchPair>, more: set<WatchPair>)
    requires forall p :: p in ws ==> p in more
    ensures WatchEdges(ws) <= WatchEdges(more)
  {
    forall u: nat, v: nat | (u, v) in WatchEdges(ws)
      ensures (u, v) in WatchEdges(more)
    {
      WatchEdgeIff(ws, u, v);
      WatchEdgeIff(more, u, v);
    }
  }

  /** Adding watch p adds its two edges. */
  lemma {:induction false} AddedWatchEdges(ws: set<WatchPair>, p: WatchPair)
    ensures WatchEdges(ws + {p}) == WatchEdges(ws) + {(p.gated, p.watched), (p.watched, p.gated)}
  {
    forall u: nat, v: nat
      ensures (u, v) in WatchEdges(ws + {p}) <==>
              (u, v) in WatchEdges(ws) + {(p.gated, p.watched), (p.watched, p.gated)}
    {
      WatchEdgeIff(ws, u, v);
      WatchEdgeIff(ws + {p}, u, v);
    }
  }

  lemma {:induction false} EdgeRises(g: Constraints, level: seq<int>, a: nat, b: nat)
    requires Wf(g) && |level| == |g.elev| && DepsRise(g.elev, g.dep, level) && WatchesLevel(g.ws, level)
    requires (a, b) in AllEdges(g)
    ensures a < |level| && b < |level| && level[a] <= level[b]
    ensures g.elev[a] != g.elev[b] ==> level[a] < level[b]
  {
    if (a, b) !in g.dep {
      WatchEdgeIff(g.ws, a, b);
    }
  }

  lemma {:induction false} LevelsRiseN(g: Constraints, level: seq<int>, a: nat, b: nat, k: nat)
    requires Wf(g) && |level| == |g.elev| && DepsRise(g.elev, g.dep, level) && WatchesLevel(g.ws, level)
    requires a < |level| && b < |level| && ReachN(AllEdges(g), a, b, k)
    ensures level[a] <= level[b]
    decreases k
  {
    if k > 0 {
      var c :| (a, c) in AllEdges(g) && ReachN(AllEdges(g), c, b, k - 1);
      EdgeRises(g, level, a, c);
      LevelsRiseN(g, level, c, b, k - 1);
    }
  }

  /** Along a walk no level drops, so levels agree around a cycle. */
  lemma {:induction false} LevelsRise(g: Constraints, start: bool, level: seq<int>, a: nat, b: nat)
    requires Wf(g) && ValidLevels(g, start, level)
    requires a < |level| && b < |level| && Reach(AllEdges(g), a, b)
    ensures level[a] <= level[b]
  {
    var k: nat :| ReachN(AllEdges(g), a, b, k);
    LevelsRiseN(g, level, a, b, k);
  }

  /** The ops whose own steps up to the other half of the level pair are
      behind v: each of them forces one more pair of levels below v. */
  ghost function StepsBefore(g: Constraints, start: bool, v: nat): set<nat> {
    set a | 0 <= a < |g.elev| && StepBefore(g, start, a, v)
  }

  ghost predicate StepBefore(g: Constraints, start: bool, a: nat, v: nat) {
    exists b :: (a, b) in AllEdges(g) && Crosses(g.elev, a, b) && g.elev[b] == start && Reach(AllEdges(g), b, v)
  }

  /** Op i's place in a pair of levels: 0 for the class level 0 has. */
  function Half(elev: seq<bool>, start: bool, i: nat): int
    requires i < |elev|
  {
    if elev[i] == start then 0 else 1
  }

  ghost function CountedLevels(g: Constraints, start: bool): seq<int> {
    seq(|g.elev|, i requires 0 <= i < |g.elev| => 2 * |StepsBefore(g, start, i)| + Half(g.elev, start, i))
  }

  lemma {:induction false} StepsGrow(g: Constraints, start: bool, u: nat, v: nat)
    requires Wf(g) && (u, v) in AllEdges(g)
    ensures StepsBefore(g, start, u) <= StepsBefore(g, start, v)
    ensures NoCross(g.elev, AllEdges(g)) && Crosses(g.elev, u, v) && g.elev[v] == start ==>
              |StepsBefore(g, start, u)| < |StepsBefore(g, start, v)|
  {
    var e := AllEdges(g);
    AllEdgesInRange(g);
    forall a | a in StepsBefore(g, start, u)
      ensures a in StepsBefore(g, start, v)
    {
      var b :| (a, b) in e && Crosses(g.elev, a, b) && g.elev[b] == start && Reach(e, b, u);
      ReachThenEdge(e, b, u, v);
    }
    if NoCross(g.elev, e) && Crosses(g.elev, u, v) && g.elev[v] == start {
      ReachRefl(e, v);
      assert StepBefore(g, start, u, v);
      assert u in StepsBefore(g, start, v);
      assert !StepBefore(g, start, u, u);
      ProperSubsetCard(StepsBefore(g, start, u), StepsBefore(g, start, v));
    } else {
      SubsetCard(StepsBefore(g, start, u), StepsBefore(g, start, v));
    }
  }

  lemma {:induction false} SubsetCard(s: set<nat>, t: set<nat>)
    requires s <= t
    ensures |s| <= |t|
  {
    assert t == s + (t - s);
  }

  lemma {:induction false} ProperSubsetCard(s: set<nat>, t: set<nat>)
    requires s < t
    ensures |s| < |t|
  {
    assert t == s + (t - s);
    assert t - s != {};
  }

  lemma {:induction false} CountedLevelsRise(g: Constraints, start: bool, u: nat, v: nat)
    requires Wf(g) && NoCross(g.elev, AllEdges(g)) && (u, v) in AllEdges(g)
    ensures u < |g.elev| && v < |g.elev|
    ensures CountedLevels(g, start)[u] <= CountedLevels(g, start)[v]
    ensures g.elev[u] != g.elev[v] ==> CountedLevels(g, start)[u] < CountedLevels(g, start)[v]
  {
    AllEdgesInRange(g);
    StepsGrow(g, start, u, v);
    SubsetCard(StepsBefore(g, start, u), StepsBefore(g, start, v));
  }

  lemma {:induction false} CountedLevelsParity(g: Constraints, start: bool)
    ensures RightParity(g.elev, start, CountedLevels(g, start))
  {
  }

  lemma {:induction false} CountedLevelsDeps(g: Constraints, start: bool)
    requires Wf(g) && NoCross(g.elev, AllEdges(g))
    ensures DepsRise(g.elev, g.dep, CountedLevels(g, start))
  {
    forall u, v | (u, v) in g.dep && u < |g.elev| && v < |g.elev|
      ensures CountedLevels(g, start)[u] <= CountedLevels(g, start)[v]
      ensures g.elev[u] != g.elev[v] ==> CountedLevels(g, start)[u] < CountedLevels(g, start)[v]
    {
      CountedLevelsRise(g, start, u, v);
    }
  }

  lemma {:induction false} CountedLevelsWatches(g: Constraints, start: bool)
    requires Wf(g) && NoCross(g.elev, AllEdges(g))
    ensures WatchesLevel(g.ws, CountedLevels(g, start))
  {
    forall p | p in g.ws && p.gated < |g.elev| && p.watched < |g.elev|
      ensures CountedLevels(g, start)[p.gated] == CountedLevels(g, start)[p.watched]
    {
      WatchEdgeIff(g.ws, p.gated, p.watched);
      WatchEdgeIff(g.ws, p.watched, p.gated);
      CountedLevelsRise(g, start, p.gated, p.watched);
      CountedLevelsRise(g, start, p.watched, p.gated);
    }
  }

  /** Sufficiency: counting the steps gives a valid assignment. */
  lemma {:induction false} CountedLevelsValid(g: Constraints, start: bool)
    requires Wf(g) && NoCross(g.elev, AllEdges(g))
    ensures ValidLevels(g, start, CountedLevels(g, start))
  {
    CountedLevelsParity(g, start);
    CountedLevelsDeps(g, start);
    CountedLevelsWatches(g, start);
  }

  ghost predicate Satisfiable(g: Constraints, start: bool) {
    exists level :: ValidLevels(g, start, level)
  }

  /** A level assignment exists exactly when no strongly connected component
      holds a cross-class edge, whichever class level 0 gets. */
  lemma {:induction false} Solvability(g: Constraints, start: bool)
    requires Wf(g)
    ensures Satisfiable(g, start) <==> NoCross(g.elev, AllEdges(g))
  {
    var e := AllEdges(g);
    if Satisfiable(g, start) {
      var level :| ValidLevels(g, start, level);
      forall u, v | (u, v) in e && Crosses(g.elev, u, v)
        ensures !Reach(e, v, u)
      {
        if Reach(e, v, u) {
          EdgeRises(g, level, u, v);
          LevelsRise(g, start, level, v, u);
        }
      }
    }
    if NoCross(g.elev, e) {
      CountedLevelsValid(g, start);
    }
  }

  /** Without dependency cycles there is nothing to cross back over. */
  lemma {:induction false} AcyclicNoCross(elev: seq<bool>, e: Edges)
    requires Acyclic(e)
    ensures NoCross(elev, e)
  {
  }

  lemma {:induction false} CrossWalkMono(elev: seq<bool>, e: Edges, f: Edges, a: nat, b: nat)
    requires e <= f && CrossWalk(elev, e, a, b)
    ensures CrossWalk(elev, f, a, b)
  {
    var x, y :| (x, y) in e && Crosses(elev, x, y) && Reach(e, a, x) && Reach(e, y, b);
    ReachMono(e, f, a, x);
    ReachMono(e, f, y, b);
  }

  lemma {:induction false} ClosesMono(elev: seq<bool>, e: Edges, f: Edges, p: WatchPair)
    requires e <= f && Closes(elev, e, p)
    ensures Closes(elev, f, p)
  {
    if CrossWalk(elev, e, p.gated, p.watched) {
      CrossWalkMono(elev, e, f, p.gated, p.watched);
    } else {
      CrossWalkMono(elev, e, f, p.watched, p.gated);
    }
  }

  /** A walk with both directions of one more edge available. */
  lemma {:induction false} ReachWithPair(e: Edges, p: WatchPair, x: nat, y: nat) returns (s: nat, t: nat)
    requires Reach(e + {(p.gated, p.watched), (p.watched, p.gated)}, x, y)
    ensures s in {p.gated, p.watched} && t in {p.gated, p.watched}
    ensures Reach(e, x, y) || (Reach(e, x, s) && Reach(e, t, y))
  {
    var one := e + {(p.gated, p.watched)};
    s, t := p.gated, p.gated;
    assert one + {(p.watched, p.gated)} == e + {(p.gated, p.watched), (p.watched, p.gated)};
    ReachWithEdge(one, p.watched, p.gated, x, y);
    if Reach(one, x, y) {
      ReachWithEdge(e, p.gated, p.watched, x, y);
      t := p.watched;
    } else {
      ReachWithEdge(e, p.gated, p.watched, x, p.watched);
      s := if Reach(e, x, p.watched) then p.watched else p.gated;
      ReachWithEdge(e, p.gated, p.watched, p.gated, y);
      t := if Reach(e, p.gated, y) then p.gated else p.watched;
    }
  }

  /** One more same-class watch breaks a satisfiable system exactly when its
      ends already have a cross-class walk between them, either way round. */
  lemma {:induction false} ClosesExactly(elev: seq<bool>, e: Edges, p: WatchPair)
    requires NoCross(elev, e) && SameClass(elev, p)
    ensures NoCross(elev, e + {(p.gated, p.watched), (p.watched, p.gated)}) <==> !Closes(elev, e, p)
  {
    var f := e + {(p.gated, p.watched), (p.watched, p.gated)};
    if !NoCross(elev, f) {
      var u, v :| (u, v) in f && Crosses(elev, u, v) && Reach(f, v, u);
      assert (u, v) in e;
      var s, t := ReachWithPair(e, p, v, u);
      assert Reach(e, t, u) && Reach(e, v, s);
      if s == t {
        ReachTrans(e, v, s, u);
        assert false;
      }
      assert CrossWalk(elev, e, t, s);
    }
    if CrossWalk(elev, e, p.gated, p.watched) {
      CrossWalkBreaks(elev, e, f, p.gated, p.watched);
    }
    if CrossWalk(elev, e, p.watched, p.gated) {
      CrossWalkBreaks(elev, e, f, p.watched, p.gated);
    }
  }

  lemma {:induction false} CrossWalkBreaks(elev: seq<bool>, e: Edges, f: Edges, a: nat, b: nat)
    requires CrossWalk(elev, e, a, b) && e <= f && (b, a) in f
    ensures !NoCross(elev, f)
  {
    var x, y :| (x, y) in e && Crosses(elev, x, y) && Reach(e, a, x) && Reach(e, y, b);
    ReachMono(e, f, a, x);
    ReachMono(e, f, y, b);
    EdgeThenReach(f, b, a, x);
    ReachTrans(f, y, b, x);
    assert (x, y) in f;
  }

  /** An edge that merges no components keeps the watches satisfiable. */
  lemma {:induction false} NoCrossWithEdge(elev: seq<bool>, e: Edges, u: nat, v: nat)
    requires NoCross(elev, e) && !Reach(e, v, u)
    ensures NoCross(elev, e + {(u, v)})
  {
    var f := e + {(u, v)};
    forall a, b | (a, b) in f && Crosses(elev, a, b)
      ensures !Reach(f, b, a)
    {
      if Reach(f, b, a) {
        ReachEdge(f, a, b);
        NoNewComponent(e, u, v, a, b);
        if (a, b) !in e {
          assert false;
        }
      }
    }
  }
}
