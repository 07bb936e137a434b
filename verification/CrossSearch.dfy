/** The search over (op, crossed) states of api/apply_conflicts.go: forward and
    backward, advanced one state at a time. */
module CrossSearch {
  import opened Walks
  import opened Levels
  import opened LevelGraphs

  /** State 2*op + crossed. */
  function State(op: nat, crossed: nat): nat {
    2 * op + crossed
  }

  function OpOf(st: nat): nat {
    st / 2
  }

  function Flag(st: nat): nat {
    st % 2
  }

  /** The crossed flag after an edge u -> v taken with flag c. */
  function FlagAfter(elev: seq<bool>, u: nat, v: nat, c: nat): nat
    requires u < |elev| && v < |elev|
  {
    if elev[v] != elev[u] then 1 else c
  }

  /** What a visited state promises: forward, that from leads to the op, with
      a crossing once the flag is 1; backward, that the op leads to to, with a
      crossing while the flag is 0. */
  ghost predicate SoundState(forward: bool, elev: seq<bool>, e: Edges, from: nat, to: nat, st: nat) {
    if forward then Reach(e, from, OpOf(st)) && (Flag(st) == 1 ==> CrossWalk(elev, e, from, OpOf(st)))
    else Reach(e, OpOf(st), to) && (Flag(st) == 0 ==> CrossWalk(elev, e, OpOf(st), to))
  }

  /** Every step out of an expanded state has been taken; forward, a crossed
      state stands for the uncrossed one of the same op. */
  ghost predicate Covered(forward: bool, elev: seq<bool>, e: Edges, hist: seq<nat>, st: nat) {
    if forward then forall v: nat :: (OpOf(st), v) in e && OpOf(st) < |elev| && v < |elev| ==>
      CoveredForward(elev, hist, st, v)
    else forall x: nat :: (x, OpOf(st)) in e && OpOf(st) < |elev| && x < |elev| ==> CoveredBackward(elev, hist, st, x)
  }

  ghost predicate CoveredForward(elev: seq<bool>, hist: seq<nat>, st: nat, v: nat)
    requires OpOf(st) < |elev| && v < |elev|
  {
    State(v, 1) in hist || State(v, FlagAfter(elev, OpOf(st), v, Flag(st))) in hist
  }

  ghost predicate CoveredBackward(elev: seq<bool>, hist: seq<nat>, st: nat, x: nat)
    requires OpOf(st) < |elev| && x < |elev|
  {
    if elev[x] == elev[OpOf(st)] then State(x, Flag(st)) in hist
    else Flag(st) == 1 ==> State(x, 0) in hist && State(x, 1) in hist
  }

  /** A finished forward search has found the walk if there is one. */
  lemma {:induction false} ForwardFinds(elev: seq<bool>, e: Edges, from: nat, to: nat, hist: seq<nat>)
    requires InRange(e, |elev|) && from < |elev| && State(from, 0) in hist
    requires forall st :: st in hist ==> Covered(true, elev, e, hist, st)
    requires CrossWalk(elev, e, from, to)
    ensures State(to, 1) in hist
  {
    var any: set<nat> := set u: nat | 0 <= u < |elev| && (State(u, 0) in hist || State(u, 1) in hist);
    var crossed: set<nat> := set u: nat | 0 <= u < |elev| && State(u, 1) in hist;
    forall u: nat, v: nat | (u, v) in e && u in any
      ensures v in any
    {
      var st := if State(u, 1) in hist then State(u, 1) else State(u, 0);
      assert Covered(true, elev, e, hist, st) && OpOf(st) == u;
      assert CoveredForward(elev, hist, st, v);
    }
    forall u: nat, v: nat | (u, v) in e && u in crossed
      ensures v in crossed
    {
      assert Covered(true, elev, e, hist, State(u, 1)) && OpOf(State(u, 1)) == u;
      assert CoveredForward(elev, hist, State(u, 1), v);
    }
    var x, y :| (x, y) in e && Crosses(elev, x, y) && Reach(e, from, x) && Reach(e, y, to);
    ReachClosed(e, any, from, x);
    var st := if State(x, 1) in hist then State(x, 1) else State(x, 0);
    assert Covered(true, elev, e, hist, st) && OpOf(st) == x;
    assert CoveredForward(elev, hist, st, y);
    ReachClosed(e, crossed, y, to);
  }

  /** A finished backward search has found it as well. */
  lemma {:induction false} BackwardFinds(elev: seq<bool>, e: Edges, from: nat, to: nat, hist: seq<nat>)
    requires InRange(e, |elev|) && to < |elev| && State(to, 1) in hist
    requires forall st :: st in hist ==> Covered(false, elev, e, hist, st)
    requires CrossWalk(elev, e, from, to)
    ensures State(from, 0) in hist
  {
    var ends: set<nat> := set u: nat | 0 <= u < |elev| && State(u, 1) in hist;
    forall x: nat, u: nat | (x, u) in e && u in ends
      ensures x in ends
    {
      assert Covered(false, elev, e, hist, State(u, 1)) && OpOf(State(u, 1)) == u && Flag(State(u, 1)) == 1;
      assert CoveredBackward(elev, hist, State(u, 1), x);
    }
    var open: set<nat> := set u: nat | 0 <= u < |elev| && State(u, 0) in hist && State(u, 1) in hist;
    forall x: nat, u: nat | (x, u) in e && u in open
      ensures x in open
    {
      assert Covered(false, elev, e, hist, State(u, 1)) && OpOf(State(u, 1)) == u && Flag(State(u, 1)) == 1;
      assert CoveredBackward(elev, hist, State(u, 1), x);
      assert Covered(false, elev, e, hist, State(u, 0)) && OpOf(State(u, 0)) == u && Flag(State(u, 0)) == 0;
      assert CoveredBackward(elev, hist, State(u, 0), x);
    }
    var x, y :| (x, y) in e && Crosses(elev, x, y) && Reach(e, from, x) && Reach(e, y, to);
    ReachClosedBack(e, ends, y, to);
    assert Covered(false, elev, e, hist, State(y, 1)) && OpOf(State(y, 1)) == y && Flag(State(y, 1)) == 1;
    assert CoveredBackward(elev, hist, State(y, 1), x);
    ReachClosedBack(e, open, from, x);
  }

  /** The marks of stamp are exactly the states of hist, each visited once. */
  ghost predicate Marking(n: nat, hist: seq<nat>, mark: seq<int>, stamp: int) {
    && |mark| == 2 * n
    && (forall k :: 0 <= k < |hist| ==> hist[k] < 2 * n)
    && (forall j, k :: 0 <= j < k < |hist| ==> hist[j] != hist[k])
    && (forall st :: 0 <= st < 2 * n ==> (mark[st] == stamp <==> st in hist))
  }

  /** An edge u -> v taken through a watch, or through a dependency. */
  ghost predicate EdgeKind(g: Constraints, u: nat, v: nat, byWatch: bool) {
    if byWatch then (u, v) in WatchEdges(g.ws) else (u, v) in g.dep
  }

  /** State st was reached from state par. */
  ghost predicate Link(g: Constraints, par: nat, st: nat, byWatch: bool) {
    && OpOf(par) < |g.elev| && OpOf(st) < |g.elev|
    && EdgeKind(g, OpOf(par), OpOf(st), byWatch)
    && Flag(st) == FlagAfter(g.elev, OpOf(par), OpOf(st), Flag(par))
  }

  /** hist[k] was reached from an earlier state. */
  ghost predicate HasParent(g: Constraints, hist: seq<nat>, parent: seq<int>, byWatch: seq<bool>, k: nat)
    requires k < |hist|
  {
    hist[k] < |parent| && hist[k] < |byWatch| &&
    exists j :: 0 <= j < k && parent[hist[k]] == hist[j] && Link(g, hist[j], hist[k], byWatch[hist[k]])
  }

  ghost predicate Parents(g: Constraints, hist: seq<nat>, parent: seq<int>, byWatch: seq<bool>) {
    && |hist| > 0 && hist[0] < |parent| && parent[hist[0]] == -1
    && forall k :: 0 < k < |hist| ==> HasParent(g, hist, parent, byWatch, k)
  }

  /** The first limit states are expanded and none of them is the target. */
  ghost predicate Expanded(forward: bool, elev: seq<bool>, e: Edges, hist: seq<nat>, limit: int, target: nat) {
    forall k :: 0 <= k < limit && k < |hist| ==> hist[k] != target && Covered(forward, elev, e, hist, hist[k])
  }

  ghost predicate AllSound(forward: bool, elev: seq<bool>, e: Edges, from: nat, to: nat, hist: seq<nat>) {
    forall k :: 0 <= k < |hist| ==> SoundState(forward, elev, e, from, to, hist[k])
  }

  lemma {:induction false} CoveredGrows(forward: bool, elev: seq<bool>, e: Edges, hist: seq<nat>, more: seq<nat>,
                                        st: nat)
    requires hist <= more && Covered(forward, elev, e, hist, st)
    ensures Covered(forward, elev, e, more, st)
  {
    assert forall x :: x in hist ==> x in more;
    if forward {
      forall v: nat | (OpOf(st), v) in e && OpOf(st) < |elev| && v < |elev|
        ensures CoveredForward(elev, more, st, v)
      {
        assert CoveredForward(elev, hist, st, v);
      }
    } else {
      forall x: nat | (x, OpOf(st)) in e && OpOf(st) < |elev| && x < |elev|
        ensures CoveredBackward(elev, more, st, x)
      {
        assert CoveredBackward(elev, hist, st, x);
      }
    }
  }

  lemma {:induction false} ExpandedGrows(forward: bool, elev: seq<bool>, e: Edges, hist: seq<nat>, more: seq<nat>,
                                         limit: int, target: nat)
    requires hist <= more && limit <= |hist| && Expanded(forward, elev, e, hist, limit, target)
    ensures Expanded(forward, elev, e, more, limit, target)
  {
    forall k | 0 <= k < limit && k < |more|
      ensures more[k] != target && Covered(forward, elev, e, more, more[k])
    {
      assert hist[k] == more[k];
      CoveredGrows(forward, elev, e, hist, more, hist[k]);
    }
  }

  lemma {:induction false} ParentsGrow(g: Constraints, hist: seq<nat>, parent: seq<int>, byWatch: seq<bool>, st: nat,
                                       par: nat, viaWatch: bool)
    requires Parents(g, hist, parent, byWatch) && st !in hist && par in hist && Link(g, par, st, viaWatch)
    requires st < |parent| && st < |byWatch|
    ensures Parents(g, hist + [st], parent[st := par], byWatch[st := viaWatch])
  {
    var more, parent', byWatch' := hist + [st], parent[st := par], byWatch[st := viaWatch];
    forall k | 0 < k < |more|
      ensures HasParent(g, more, parent', byWatch', k)
    {
      if k < |hist| {
        assert HasParent(g, hist, parent, byWatch, k);
        var j :| 0 <= j < k && parent[hist[k]] == hist[j] && Link(g, hist[j], hist[k], byWatch[hist[k]]);
        assert parent'[more[k]] == more[j];
      } else {
        var j :| 0 <= j < |hist| && hist[j] == par;
        assert parent'[more[k]] == more[j];
      }
    }
  }

  lemma {:induction false} MarkingGrows(n: nat, hist: seq<nat>, mark: seq<int>, stamp: int, st: nat)
    requires Marking(n, hist, mark, stamp) && st < 2 * n && st !in hist
    ensures Marking(n, hist + [st], mark[st := stamp], stamp)
  {
  }

  lemma {:induction false} NothingMarked(n: nat, mark: seq<int>, stamp: int)
    requires |mark| == 2 * n && forall st :: 0 <= st < |mark| ==> mark[st] < stamp
    ensures Marking(n, [], mark, stamp)
  {
  }

  lemma {:induction false} StartState(forward: bool, g: Constraints, from: nat, to: nat, st: nat, parent: seq<int>,
                                      byWatch: seq<bool>, target: nat)
    requires st == if forward then State(from, 0) else State(to, 1)
    requires st < |parent| && parent[st] == -1
    ensures AllSound(forward, g.elev, AllEdges(g), from, to, [st])
    ensures Parents(g, [st], parent, byWatch)
    ensures Expanded(forward, g.elev, AllEdges(g), [st], 0, target)
  {
    ReachRefl(AllEdges(g), OpOf(st));
  }

  /** One breadth-first search over the states, advanced by Step. */
  class StateSearch {
    const lg: LevelGraph
    const marks: PathMarks
    const forward: bool
    const target: nat
    var queue: seq<nat>

    ghost const from: nat
    ghost const to: nat
    /** Every visited state in the order visited; queue is its unexpanded tail. */
    ghost var hist: seq<nat>

    ghost function Head(): int
      reads this
    {
      |hist| - |queue|
    }

    ghost predicate Shape()
      reads this, marks, lg
    {
      && lg.Valid() && marks.Valid(|lg.elev|)
      && 0 <= Head() && queue == hist[Head()..]
      && Marking(|lg.elev|, hist, marks.mark, marks.stamp)
      && from < |lg.elev| && to < |lg.elev|
    }

    /** Everything found so far is sound; forward, the way back is recorded. */
    ghost predicate Sound()
      reads this, marks, lg
    {
      && AllSound(forward, lg.elev, AllEdges(lg.Value()), from, to, hist)
      && (forward ==> Parents(lg.Value(), hist, marks.parent, marks.byWatch))
    }

    ghost predicate Valid()
      reads this, marks, lg
    {
      && Shape() && Sound()
      && |hist| > 0 && hist[0] == (if forward then State(from, 0) else State(to, 1))
      && target == (if forward then State(to, 1) else State(from, 0))
      && Expanded(forward, lg.elev, AllEdges(lg.Value()), hist, Head(), target)
    }

    /** forwardSearch: from (from, not crossed) towards (to, crossed). */
    constructor Forward(lg: LevelGraph, from: nat, to: nat)
      requires lg.Valid() && lg.seen.Valid(|lg.elev|) && from < |lg.elev| && to < |lg.elev|
      modifies lg.seen
      ensures Valid() && forward && this.lg == lg && marks == lg.seen && this.from == from && this.to == to
      ensures Head() == 0
    {
      hide Marking, Parents, AllSound, Expanded, AllEdges;
      this.lg, marks, forward, this.from, this.to := lg, lg.seen, true, from, to;
      target := State(to, 1);
      queue, hist := [], [];
      new;
      marks.stamp := marks.stamp + 1;
      NothingMarked(|lg.elev|, marks.mark, marks.stamp);
      VisitState(State(from, 0), -1, false);
      StartState(true, lg.Value(), from, to, State(from, 0), marks.parent, marks.byWatch, target);
    }

    /** backwardSearch: from (to, crossed) back towards (from, not crossed). */
    constructor Backward(lg: LevelGraph, from: nat, to: nat)
      requires lg.Valid() && lg.back.Valid(|lg.elev|) && from < |lg.elev| && to < |lg.elev|
      modifies lg.back
      ensures Valid() && !forward && this.lg == lg && marks == lg.back && this.from == from && this.to == to
      ensures Head() == 0
    {
      hide Marking, Parents, AllSound, Expanded, AllEdges;
      this.lg, marks, forward, this.from, this.to := lg, lg.back, false, from, to;
      target := State(from, 0);
      queue, hist := [], [];
      new;
      marks.stamp := marks.stamp + 1;
      NothingMarked(|lg.elev|, marks.mark, marks.stamp);
      VisitState(State(to, 1), -1, false);
      StartState(false, lg.Value(), from, to, State(to, 1), marks.parent, marks.byWatch, target);
    }

    method VisitState(st: nat, par: int, viaWatch: bool)
      requires marks.Valid(|lg.elev|) && st < 2 * |lg.elev|
      requires Marking(|lg.elev|, hist, marks.mark, marks.stamp) && 0 <= Head() && queue == hist[Head()..]
      modifies this`queue, this`hist, marks`mark, marks`parent, marks`byWatch
      ensures marks.Valid(|lg.elev|) && Head() == old(Head()) && queue == hist[Head()..]
      ensures Marking(|lg.elev|, hist, marks.mark, marks.stamp)
      ensures hist == if st in old(hist) then old(hist) else old(hist) + [st]
      ensures marks.parent == if st in old(hist) then old(marks.parent) else old(marks.parent)[st := par]
      ensures marks.byWatch == if st in old(hist) then old(marks.byWatch) else old(marks.byWatch)[st := viaWatch]
    {
      if marks.mark[st] == marks.stamp {
        return;
      }
      MarkingGrows(|lg.elev|, hist, marks.mark, marks.stamp, st);
      marks.mark := marks.mark[st := marks.stamp];
      marks.parent := marks.parent[st := par];
      marks.byWatch := marks.byWatch[st := viaWatch];
      queue := queue + [st];
      hist := hist + [st];
    }

    /** The forward step over edge u -> v of the expanded state st. */
    method ForwardStep(st: nat, v: nat, viaWatch: bool)
      requires Shape() && Sound() && forward && st in hist && OpOf(st) < |lg.elev| && v < |lg.elev|
      requires EdgeKind(lg.Value(), OpOf(st), v, viaWatch)
      modifies this`queue, this`hist, marks`mark, marks`parent, marks`byWatch
      ensures Shape() && Sound() && Head() == old(Head()) && old(hist) <= hist
      ensures CoveredForward(lg.elev, hist, st, v)
    {
      hide Marking, Parents, AllSound, AllEdges;
      var c := FlagAfter(lg.elev, OpOf(st), v, Flag(st));
      MarkedIff(|lg.elev|, hist, marks.mark, marks.stamp, State(v, 1));
      if marks.mark[State(v, 1)] != marks.stamp {
        ghost var g := lg.Value();
        KindEdge(g, OpOf(st), v, viaWatch);
        ForwardFound(g, from, to, hist, marks.parent, marks.byWatch, st, v, viaWatch);
        VisitState(State(v, c), st, viaWatch);
      }
    }

    /** The backward step over edge x -> y into the expanded state st of y. */
    method BackwardStep(st: nat, x: nat)
      requires Shape() && Sound() && !forward && st in hist && OpOf(st) < |lg.elev| && x < |lg.elev|
      requires (x, OpOf(st)) in AllEdges(lg.Value())
      modifies this`queue, this`hist, marks`mark, marks`parent, marks`byWatch
      ensures Shape() && Sound() && Head() == old(Head()) && old(hist) <= hist
      ensures CoveredBackward(lg.elev, hist, st, x)
    {
      hide Marking, Parents, AllSound, AllEdges;
      ghost var e := AllEdges(lg.Value());
      if lg.elev[x] == lg.elev[OpOf(st)] {
        SoundGrows(false, lg.elev, e, from, to, hist, st, x, Flag(st));
        VisitState(State(x, Flag(st)), st, false);
      } else if Flag(st) == 1 {
        SoundGrows(false, lg.elev, e, from, to, hist, st, x, 0);
        VisitState(State(x, 0), st, false);
        SoundGrows(false, lg.elev, e, from, to, hist, st, x, 1);
        VisitState(State(x, 1), st, false);
      }
    }

    method ExpandForward(st: nat)
      requires Shape() && Sound() && forward && st in hist
      modifies this`queue, this`hist, marks`mark, marks`parent, marks`byWatch
      ensures Shape() && Sound() && Head() == old(Head()) && old(hist) <= hist
      ensures Covered(true, lg.elev, AllEdges(lg.Value()), hist, st)
    {
      hide Marking, Parents, AllSound, AllEdges, CoveredForward, Sound;
      StateBound(|lg.elev|, hist, marks.mark, marks.stamp, st);
      var u := OpOf(st);
      lg.EdgeKinds(u);
      ghost var was := hist;
      for k := 0 to |lg.waiters[u]|
        invariant Shape() && Sound() && Head() == old(Head()) && was <= hist
        invariant forall j :: 0 <= j < k ==> CoveredForward(lg.elev, hist, st, lg.waiters[u][j])
      {
        ghost var before := hist;
        ForwardStep(st, lg.waiters[u][k], false);
        CoveredAllForward(lg.elev, before, hist, st, lg.waiters[u][..k]);
      }
      var watched := Neighbours(lg.watch, u);
      for k := 0 to |watched|
        invariant Shape() && Sound() && Head() == old(Head()) && was <= hist
        invariant forall j :: 0 <= j < |lg.waiters[u]| ==> CoveredForward(lg.elev, hist, st, lg.waiters[u][j])
        invariant forall j :: 0 <= j < k ==> CoveredForward(lg.elev, hist, st, watched[j])
      {
        ghost var before := hist;
        ForwardStep(st, watched[k], true);
        CoveredAllForward(lg.elev, before, hist, st, lg.waiters[u]);
        CoveredAllForward(lg.elev, before, hist, st, watched[..k]);
      }
    }
  
    method ExpandBackward(st: nat)
      requires Shape() && Sound() && !forward && st in hist
      modifies this`queue, this`hist, marks`mark, marks`parent, marks`byWatch
      ensures Shape() && Sound() && Head() == old(Head()) && old(hist) <= hist
      ensures Covered(false, lg.elev, AllEdges(lg.Value()), hist, st)
    {
      hide Marking, Parents, AllSound, AllEdges, CoveredBackward, Sound;
      StateBound(|lg.elev|, hist, marks.mark, marks.stamp, st);
      var y := OpOf(st);
      lg.InEdges(y);
      ghost var was := hist;
      for k := 0 to |lg.incoming[y]|
        invariant Shape() && Sound() && Head() == old(Head()) && was <= hist
        invariant forall j :: 0 <= j < k ==> CoveredBackward(lg.elev, hist, st, lg.incoming[y][j])
      {
        ghost var before := hist;
        BackwardStep(st, lg.incoming[y][k]);
        CoveredAllBackward(lg.elev, before, hist, st, lg.incoming[y][..k]);
      }
      var watched := Neighbours(lg.watch, y);
      for k := 0 to |watched|
        invariant Shape() && Sound() && Head() == old(Head()) && was <= hist
        invariant forall j :: 0 <= j < |lg.incoming[y]| ==> CoveredBackward(lg.elev, hist, st, lg.incoming[y][j])
        invariant forall j :: 0 <= j < k ==> CoveredBackward(lg.elev, hist, st, watched[j])
      {
        ghost var before := hist;
        BackwardStep(st, watched[k]);
        CoveredAllBackward(lg.elev, before, hist, st, lg.incoming[y]);
        CoveredAllBackward(lg.elev, before, hist, st, watched[..k]);
      }
    }

    /** Whether the search, finished without finding, or with found, has
        decided the walk from from to to. */
    ghost predicate Decided(found: bool)
      reads this, marks, lg
    {
      found <==> CrossWalk(lg.elev, AllEdges(lg.Value()), from, to)
    }

    /** Expands one queued state.  Done when the target was taken from the
        queue, or when the queue ran empty: each search alone decides. */
    method Step() returns (done: bool, found: bool)
      requires Valid()
      modifies this`queue, this`hist, marks`mark, marks`parent, marks`byWatch
      ensures Shape() && Sound() && |hist| > 0 && old(hist) <= hist
      ensures found ==> done && target in hist
      ensures done ==> Decided(found)
      ensures !done ==> Valid() && Head() == old(Head()) + 1
    {
      hide Marking, Parents, AllSound, AllEdges, Expanded, Covered, SoundState, CrossWalk;
      ghost var e, n := AllEdges(lg.Value()), |lg.elev|;
      EdgesInBounds(lg);
      if |queue| == 0 {
        FinishedSearch(forward, lg.elev, e, from, to, hist, target);
        return true, false;
      }
      var st := queue[0];
      assert st == hist[Head()];
      queue := queue[1..];
      if st == target {
        FoundTarget(forward, lg.elev, e, from, to, hist, target);
        return true, true;
      }
      ghost var was := hist;
      if forward {
        ExpandForward(st);
      } else {
        ExpandBackward(st);
      }
      ExpandedGrows(forward, lg.elev, e, was, hist, Head() - 1, target);
      ExpandedNext(forward, lg.elev, e, hist, Head(), target);
      return false, false;
    }
  }

  lemma {:induction false} EdgesInBounds(lg: LevelGraph)
    requires lg.Valid()
    ensures InRange(AllEdges(lg.Value()), |lg.elev|)
  {
    forall u: nat, v: nat | (u, v) in AllEdges(lg.Value())
      ensures u < |lg.elev| && v < |lg.elev|
    {
      lg.EdgeListed(u, v);
    }
  }

  lemma {:induction false} ExpandedNext(forward: bool, elev: seq<bool>, e: Edges, hist: seq<nat>, limit: int,
                                        target: nat)
    requires 0 < limit <= |hist| && Expanded(forward, elev, e, hist, limit - 1, target)
    requires hist[limit - 1] != target && Covered(forward, elev, e, hist, hist[limit - 1])
    ensures Expanded(forward, elev, e, hist, limit, target)
  {
  }

  lemma {:induction false} FinishedSearch(forward: bool, elev: seq<bool>, e: Edges, from: nat, to: nat, hist: seq<nat>,
                                          target: nat)
    requires InRange(e, |elev|) && from < |elev| && to < |elev| && |hist| > 0
    requires hist[0] == if forward then State(from, 0) else State(to, 1)
    requires target == if forward then State(to, 1) else State(from, 0)
    requires Expanded(forward, elev, e, hist, |hist|, target) && AllSound(forward, elev, e, from, to, hist)
    ensures !CrossWalk(elev, e, from, to)
  {
    assert forall st :: st in hist ==> st != target && Covered(forward, elev, e, hist, st);
    if forward {
      ForwardDecides(elev, e, from, to, hist);
    } else {
      BackwardDecides(elev, e, from, to, hist);
    }
  }

  /** A finished forward search holds the target state exactly when there is a
      walk. */
  lemma {:induction false} ForwardDecides(elev: seq<bool>, e: Edges, from: nat, to: nat, hist: seq<nat>)
    requires InRange(e, |elev|) && from < |elev| && State(from, 0) in hist && AllSound(true, elev, e, from, to, hist)
    requires forall st :: st in hist ==> Covered(true, elev, e, hist, st)
    ensures State(to, 1) in hist <==> CrossWalk(elev, e, from, to)
  {
    hide Covered, AllSound, CrossWalk;
    if CrossWalk(elev, e, from, to) {
      ForwardFinds(elev, e, from, to, hist);
    }
    if State(to, 1) in hist {
      FoundTarget(true, elev, e, from, to, hist, State(to, 1));
    }
  }

  /** A finished backward search decides the same on its own. */
  lemma {:induction false} BackwardDecides(elev: seq<bool>, e: Edges, from: nat, to: nat, hist: seq<nat>)
    requires InRange(e, |elev|) && to < |elev| && State(to, 1) in hist && AllSound(false, elev, e, from, to, hist)
    requires forall st :: st in hist ==> Covered(false, elev, e, hist, st)
    ensures State(from, 0) in hist <==> CrossWalk(elev, e, from, to)
  {
    hide Covered, AllSound, CrossWalk;
    if CrossWalk(elev, e, from, to) {
      BackwardFinds(elev, e, from, to, hist);
    }
    if State(from, 0) in hist {
      FoundTarget(false, elev, e, from, to, hist, State(from, 0));
    }
  }

  lemma {:induction false} FoundTarget(forward: bool, elev: seq<bool>, e: Edges, from: nat, to: nat, hist: seq<nat>,
                                       target: nat)
    requires target == (if forward then State(to, 1) else State(from, 0)) && target in hist
    requires AllSound(forward, elev, e, from, to, hist)
    ensures CrossWalk(elev, e, from, to)
  {
    assert SoundState(forward, elev, e, from, to, target);
  }

  lemma {:induction false} CoveredAllForward(elev: seq<bool>, hist: seq<nat>, more: seq<nat>, st: nat, out: seq<nat>)
    requires hist <= more && OpOf(st) < |elev|
    requires forall j :: 0 <= j < |out| ==> out[j] < |elev| && CoveredForward(elev, hist, st, out[j])
    ensures forall j :: 0 <= j < |out| ==> CoveredForward(elev, more, st, out[j])
  {
    assert forall x :: x in hist ==> x in more;
  }

  lemma {:induction false} CoveredAllBackward(elev: seq<bool>, hist: seq<nat>, more: seq<nat>, st: nat, out: seq<nat>)
    requires hist <= more && OpOf(st) < |elev|
    requires forall j :: 0 <= j < |out| ==> out[j] < |elev| && CoveredBackward(elev, hist, st, out[j])
    ensures forall j :: 0 <= j < |out| ==> CoveredBackward(elev, more, st, out[j])
  {
    assert forall x :: x in hist ==> x in more;
  }

  lemma {:induction false} MarkedIff(n: nat, hist: seq<nat>, mark: seq<int>, stamp: int, st: nat)
    requires Marking(n, hist, mark, stamp) && st < 2 * n
    ensures |mark| == 2 * n && (mark[st] == stamp <==> st in hist)
  {
  }

  lemma {:induction false} StateBound(n: nat, hist: seq<nat>, mark: seq<int>, stamp: int, st: nat)
    requires Marking(n, hist, mark, stamp) && st in hist
    ensures st < 2 * n && OpOf(st) < n
  {
  }

  lemma {:induction false} KindEdge(g: Constraints, u: nat, v: nat, byWatch: bool)
    requires EdgeKind(g, u, v, byWatch)
    ensures (u, v) in AllEdges(g)
  {
  }

  lemma {:induction false} SoundGrows(forward: bool, elev: seq<bool>, e: Edges, from: nat, to: nat, hist: seq<nat>,
                                      st: nat, v: nat, c: nat)
    requires AllSound(forward, elev, e, from, to, hist) && st in hist && OpOf(st) < |elev| && v < |elev|
    requires if forward then (OpOf(st), v) in e && c == FlagAfter(elev, OpOf(st), v, Flag(st))
             else (v, OpOf(st)) in e && (if elev[v] == elev[OpOf(st)] then c == Flag(st) else Flag(st) == 1 && c < 2)
    ensures AllSound(forward, elev, e, from, to, hist + [State(v, c)])
  {
    assert SoundState(forward, elev, e, from, to, st);
    if forward {
      ForwardSound(elev, e, from, to, st, v);
    } else {
      BackwardSound(elev, e, from, to, st, v, c);
    }
  }

  lemma {:induction false} ForwardFound(g: Constraints, from: nat, to: nat, hist: seq<nat>, parent: seq<int>,
                                        byWatch: seq<bool>,
                     st: nat, v: nat, viaWatch: bool)
    requires AllSound(true, g.elev, AllEdges(g), from, to, hist) && Parents(g, hist, parent, byWatch)
    requires st in hist && OpOf(st) < |g.elev| && v < |g.elev| && EdgeKind(g, OpOf(st), v, viaWatch)
    requires |parent| == |byWatch| == 2 * |g.elev|
    ensures var t := State(v, FlagAfter(g.elev, OpOf(st), v, Flag(st)));
            t < 2 * |g.elev| && AllSound(true, g.elev, AllEdges(g), from, to, hist + [t]) &&
            (t !in hist ==> Parents(g, hist + [t], parent[t := st], byWatch[t := viaWatch]))
  {
    var t := State(v, FlagAfter(g.elev, OpOf(st), v, Flag(st)));
    KindEdge(g, OpOf(st), v, viaWatch);
    SoundGrows(true, g.elev, AllEdges(g), from, to, hist, st, v, FlagAfter(g.elev, OpOf(st), v, Flag(st)));
    if t !in hist {
      ParentsGrow(g, hist, parent, byWatch, t, st, viaWatch);
    }
  }

  lemma {:induction false} ForwardSound(elev: seq<bool>, e: Edges, from: nat, to: nat, st: nat, v: nat)
    requires (OpOf(st), v) in e && OpOf(st) < |elev| && v < |elev| && SoundState(true, elev, e, from, to, st)
    ensures SoundState(true, elev, e, from, to, State(v, FlagAfter(elev, OpOf(st), v, Flag(st))))
  {
    var u := OpOf(st);
    assert OpOf(State(v, FlagAfter(elev, u, v, Flag(st)))) == v;
    ReachThenEdge(e, from, u, v);
    if elev[u] != elev[v] {
      ReachRefl(e, v);
      assert Crosses(elev, u, v);
    } else if Flag(st) == 1 {
      var x, y :| (x, y) in e && Crosses(elev, x, y) && Reach(e, from, x) && Reach(e, y, u);
      ReachThenEdge(e, y, u, v);
    }
  }

  lemma {:induction false} BackwardSound(elev: seq<bool>, e: Edges, from: nat, to: nat, st: nat, x: nat, c: nat)
    requires (x, OpOf(st)) in e && OpOf(st) < |elev| && x < |elev| && SoundState(false, elev, e, from, to, st)
    requires if elev[x] == elev[OpOf(st)] then c == Flag(st) else Flag(st) == 1 && c < 2
    ensures SoundState(false, elev, e, from, to, State(x, c))
  {
    var y := OpOf(st);
    assert OpOf(State(x, c)) == x && Flag(State(x, c)) == c;
    EdgeThenReach(e, x, y, to);
    if elev[x] != elev[y] {
      ReachRefl(e, x);
      assert Crosses(elev, x, y);
    } else if Flag(st) == 0 {
      var a, b :| (a, b) in e && Crosses(elev, a, b) && Reach(e, y, a) && Reach(e, b, to);
      EdgeThenReach(e, x, y, a);
    }
  }

  lemma {:induction false} StatesLeft(n: nat, hist: seq<nat>, mark: seq<int>, stamp: int)
    requires Marking(n, hist, mark, stamp)
    ensures |hist| <= 2 * n
  {
    DistinctBelow(hist, 2 * n);
  }

  /** hasCrossWalk: the two searches in lockstep, until either decides. */
  method HasCrossWalk(lg: LevelGraph, from: nat, to: nat) returns (found: bool)
    requires lg.Valid() && lg.ScratchValid() && from < |lg.elev| && to < |lg.elev|
    modifies lg.seen, lg.back
    ensures lg.ScratchValid()
    ensures found <==> CrossWalk(lg.elev, AllEdges(lg.Value()), from, to)
  {
    var fwd := new StateSearch.Forward(lg, from, to);
    var back := new StateSearch.Backward(lg, from, to);
    while true
      invariant fwd.Valid() && back.Valid() && fwd.Head() >= 0
      decreases 2 * |lg.elev| + 1 - fwd.Head()
    {
      StatesLeft(|lg.elev|, fwd.hist, fwd.marks.mark, fwd.marks.stamp);
      var done;
      done, found := fwd.Step();
      if done {
        return found;
      }
      done, found := back.Step();
      if done {
        return found;
      }
    }
  }

  /** crossPath: the forward search alone, which leaves the way it came in the
      marks; hist is the order of its visits. */
  method CrossPath(lg: LevelGraph, from: nat, to: nat) returns (found: bool, ghost hist: seq<nat>)
    requires lg.Valid() && lg.ScratchValid() && from < |lg.elev| && to < |lg.elev|
    modifies lg.seen
    ensures lg.ScratchValid()
    ensures found <==> CrossWalk(lg.elev, AllEdges(lg.Value()), from, to)
    ensures Parents(lg.Value(), hist, lg.seen.parent, lg.seen.byWatch) && hist[0] == State(from, 0)
    ensures Marking(|lg.elev|, hist, lg.seen.mark, lg.seen.stamp)
    ensures found ==> State(to, 1) in hist
  {
    var fwd := new StateSearch.Forward(lg, from, to);
    while true
      invariant fwd.Valid() && fwd.Head() >= 0
      decreases 2 * |lg.elev| + 1 - fwd.Head()
    {
      StatesLeft(|lg.elev|, fwd.hist, fwd.marks.mark, fwd.marks.stamp);
      var done;
      done, found := fwd.Step();
      if done {
        return found, fwd.hist;
      }
    }
  }

  /** closesCrossCycle: whether watch p breaks the satisfiable graph lg. */
  method ClosesCrossCycle(lg: LevelGraph, p: WatchPair) returns (closes: bool)
    requires lg.Valid() && lg.ScratchValid() && p.gated < |lg.elev| && p.watched < |lg.elev|
    modifies lg.seen, lg.back
    ensures lg.ScratchValid()
    ensures closes <==> Closes(lg.elev, AllEdges(lg.Value()), p)
  {
    closes := HasCrossWalk(lg, p.gated, p.watched);
    if !closes {
      closes := HasCrossWalk(lg, p.watched, p.gated);
    }
  }
}
