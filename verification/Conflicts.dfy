/** Why a dropped watch does not fit: the minimal conflict sets of
    api/apply_conflicts.go. */
module Conflicts {
  import opened Walks
  import opened Levels
  import opened LevelGraphs
  import opened ApplyLevels
  import opened CrossSearch

  /** Watch p cannot be met next to the watches ws. */
  ghost predicate Excludes(elev: seq<bool>, dep: Edges, ws: set<WatchPair>, p: WatchPair) {
    Closes(elev, dep + WatchEdges(ws), p)
  }

  lemma {:induction false} ExcludesMono(elev: seq<bool>, dep: Edges, ws: set<WatchPair>, more: set<WatchPair>,
                                        p: WatchPair)
    requires ws <= more && Excludes(elev, dep, ws, p)
    ensures Excludes(elev, dep, more, p)
  {
    WatchEdgesMono(ws, more);
    ClosesMono(elev, dep + WatchEdges(ws), dep + WatchEdges(more), p);
  }

  predicate Touches(q: WatchPair, op: nat) {
    q.gated == op || q.watched == op
  }

  ghost predicate NoEdgeAt(e: Edges, op: nat) {
    forall u, v :: (u, v) in e ==> u != op && v != op
  }

  /** Nothing but itself reaches an op without edges. */
  lemma {:induction false} IsolatedReach(e: Edges, op: nat, x: nat)
    requires NoEdgeAt(e, op)
    ensures Reach(e, x, op) ==> x == op
    ensures Reach(e, op, x) ==> x == op
  {
    if Reach(e, x, op) && x != op {
      var c := ReachLast(e, x, op);
    }
    if Reach(e, op, x) && x != op {
      var c := ReachFirst(e, op, x);
    }
  }

  /** A detour over a dead end adds no connection between other ops. */
  lemma {:induction false} DeadEndReach(e: Edges, a: nat, op: nat, x: nat, y: nat)
    requires NoEdgeAt(e, op) && a != op && x != op && y != op
    requires Reach(e + {(a, op), (op, a)}, x, y)
    ensures Reach(e, x, y)
  {
    var s, t := ReachWithPair(e, WatchPair(a, op), x, y);
    IsolatedReach(e, op, x);
    IsolatedReach(e, op, y);
    if !Reach(e, x, y) {
      ReachTrans(e, x, a, y);
    }
  }

  /** q is the only watch of ws at op, which has no dependencies either. */
  ghost predicate DeadEnd(dep: Edges, ws: set<WatchPair>, q: WatchPair, op: nat) {
    NoEdgeAt(dep, op) && Touches(q, op) && q.gated != q.watched && forall r :: r in ws && Touches(r, op) ==> r == q
  }

  lemma {:induction false} DeadEndEdges(dep: Edges, ws: set<WatchPair>, q: WatchPair, op: nat)
    requires q in ws && DeadEnd(dep, ws, q, op)
    ensures NoEdgeAt(dep + WatchEdges(ws - {q}), op)
    ensures dep + WatchEdges(ws) == dep + WatchEdges(ws - {q}) + {(q.gated, q.watched), (q.watched, q.gated)}
  {
    AddedWatchEdges(ws - {q}, q);
    assert ws - {q} + {q} == ws;
    forall u: nat, v: nat | (u, v) in dep + WatchEdges(ws - {q})
      ensures u != op && v != op
    {
      WatchEdgeIff(ws - {q}, u, v);
    }
  }

  lemma {:induction false} DeadEndCrossWalk(elev: seq<bool>, e: Edges, a: nat, op: nat, from: nat, to: nat)
    requires NoEdgeAt(e, op) && a != op && from != op && to != op
    requires a < |elev| && op < |elev| && elev[a] == elev[op]
    requires CrossWalk(elev, e + {(a, op), (op, a)}, from, to)
    ensures CrossWalk(elev, e, from, to)
  {
    var x, y :| (x, y) in e + {(a, op), (op, a)} && Crosses(elev, x, y) &&
                Reach(e + {(a, op), (op, a)}, from, x) && Reach(e + {(a, op), (op, a)}, y, to);
    assert (x, y) in e;
    DeadEndReach(e, a, op, from, x);
    DeadEndReach(e, a, op, y, to);
  }

  /** Removing a dead-end watch never resolves a conflict of p. */
  lemma {:induction false} DeadEndUseless(elev: seq<bool>, dep: Edges, ws: set<WatchPair>, p: WatchPair, q: WatchPair,
                                          op: nat)
    requires q in ws && SameClass(elev, q) && DeadEnd(dep, ws, q, op) && !Touches(p, op)
    requires Excludes(elev, dep, ws, p)
    ensures Excludes(elev, dep, ws - {q}, p)
  {
    DeadEndEdges(dep, ws, q, op);
    var e := dep + WatchEdges(ws - {q});
    var a := if q.gated == op then q.watched else q.gated;
    assert dep + WatchEdges(ws) == e + {(a, op), (op, a)};
    if CrossWalk(elev, dep + WatchEdges(ws), p.gated, p.watched) {
      DeadEndCrossWalk(elev, e, a, op, p.gated, p.watched);
    } else {
      DeadEndCrossWalk(elev, e, a, op, p.watched, p.gated);
    }
  }

  /** op passes walks only between the two watches q and r of with. */
  ghost predicate PlainBetween(dep: Edges, with: seq<WatchPair>, p: WatchPair, op: nat, q: WatchPair, r: WatchPair) {
    && NoEdgeAt(dep, op) && !Touches(p, op) && Touches(q, op) && Touches(r, op)
    && forall k :: 0 <= k < |with| && Touches(with[k], op) ==> with[k] == q || with[k] == r
  }

  /** unit[m] continues an earlier watch of its run at a plain op. */
  ghost predicate Continues(dep: Edges, with: seq<WatchPair>, p: WatchPair, unit: seq<WatchPair>, m: nat)
    requires m < |unit|
  {
    exists l, op :: 0 <= l < m && PlainBetween(dep, with, p, op, unit[l], unit[m])
  }

  /** A run of watches that are equivalent for p. */
  ghost predicate Series(dep: Edges, with: seq<WatchPair>, p: WatchPair, unit: seq<WatchPair>) {
    && |unit| > 0 && (forall k :: 0 <= k < |unit| ==> unit[k] in with)
    && forall m :: 0 < m < |unit| ==> Continues(dep, with, p, unit, m)
  }

  /** Some watch of the run outside gone shares a plain op with one inside. */
  lemma {:induction false} SeriesFrontier(dep: Edges, with: seq<WatchPair>, p: WatchPair, unit: seq<WatchPair>,
                                          gone: set<WatchPair>, upTo: nat) returns (q: WatchPair, r: WatchPair, op: nat)
    requires Series(dep, with, p, unit) && 0 < upTo <= |unit|
    requires exists k :: 0 <= k < upTo && unit[k] in gone
    requires exists k :: 0 <= k < upTo && unit[k] !in gone
    ensures q in unit && r in unit && q in gone && r !in gone
    ensures PlainBetween(dep, with, p, op, q, r) || PlainBetween(dep, with, p, op, r, q)
    decreases upTo
  {
    var m := upTo - 1;
    if (exists k :: 0 <= k < m && unit[k] in gone) && (exists k :: 0 <= k < m && unit[k] !in gone) {
      q, r, op := SeriesFrontier(dep, with, p, unit, gone, m);
    } else {
      assert m > 0;
      assert Continues(dep, with, p, unit, m);
      var l, o :| 0 <= l < m && PlainBetween(dep, with, p, o, unit[l], unit[m]);
      op := o;
      if unit[l] in gone { q, r := unit[l], unit[m]; } else { q, r := unit[m], unit[l]; }
    }
  }

  ghost predicate SoundList(elev: seq<bool>, with: seq<WatchPair>) {
    forall k :: 0 <= k < |with| ==> SameClass(elev, with[k]) && with[k].gated != with[k].watched
  }

  /** Once one watch of a run is gone, the rest of the run is useless. */
  lemma {:induction false} SeriesUseless(elev: seq<bool>, dep: Edges, with: seq<WatchPair>, p: WatchPair,
                                         unit: seq<WatchPair>, ws: set<WatchPair>, gone: set<WatchPair>)
    requires SoundList(elev, with) && Series(dep, with, p, unit)
    requires Members(unit) <= ws && (forall q :: q in ws ==> q in with)
    requires gone <= Members(unit) && gone != {}
    requires Excludes(elev, dep, ws - gone, p)
    ensures Excludes(elev, dep, ws - Members(unit), p)
    decreases Members(unit) - gone
  {
    if gone != Members(unit) {
      var g0 :| g0 in gone;
      var l :| 0 <= l < |unit| && unit[l] == g0;
      assert !(Members(unit) <= gone);
      var r0 :| r0 in Members(unit) && r0 !in gone;
      var k :| 0 <= k < |unit| && unit[k] == r0;
      var q, r, op := SeriesFrontier(dep, with, p, unit, gone, |unit|);
      assert DeadEnd(dep, ws - gone, r, op) by {
        forall x | x in ws - gone && Touches(x, op)
          ensures x == r
        {
          var i :| 0 <= i < |with| && with[i] == x;
        }
      }
      DeadEndUseless(elev, dep, ws - gone, p, r, op);
      assert ws - gone - {r} == ws - (gone + {r});
      SeriesUseless(elev, dep, with, p, unit, ws, gone + {r});
    }
  }

  /** The undirected edge of a watch. */
  function EdgeKey(p: WatchPair): (nat, nat) {
    if p.gated <= p.watched then (p.gated, p.watched) else (p.watched, p.gated)
  }

  ghost predicate DistinctKeys(with: seq<WatchPair>) {
    forall j, k :: 0 <= j < k < |with| ==> EdgeKey(with[j]) != EdgeKey(with[k])
  }

  /** index names the first watch of kept on each undirected edge. */
  ghost predicate FirstOnEdge(index: map<(nat, nat), nat>, kept: seq<WatchPair>) {
    && (forall k :: 0 <= k < |kept| ==> EdgeKey(kept[k]) in index && index[EdgeKey(kept[k])] <= k)
    && (forall e :: e in index ==> index[e] < |kept| && EdgeKey(kept[index[e]]) == e)
  }

  method KeptIndex(kept: seq<WatchPair>) returns (index: map<(nat, nat), nat>)
    ensures FirstOnEdge(index, kept)
  {
    index := map[];
    for i := 0 to |kept|
      invariant FirstOnEdge(index, kept[..i])
    {
      assert kept[..i + 1][..i] == kept[..i];
      if EdgeKey(kept[i]) !in index {
        index := index[EdgeKey(kept[i]) := i];
      }
    }
    assert kept[..|kept|] == kept;
  }

  ghost function Chosen(kept: seq<WatchPair>, used: set<nat>): set<WatchPair> {
    set k | k in used && k < |kept| :: kept[k]
  }

  /** The watch edge u -> v of kept comes from the watch index names. */
  lemma {:induction false} IndexedEdge(index: map<(nat, nat), nat>, kept: seq<WatchPair>, u: nat, v: nat)
    requires FirstOnEdge(index, kept) && (u, v) in WatchEdges(Members(kept))
    ensures EdgeKey(WatchPair(u, v)) in index
    ensures (u, v) in WatchEdges({kept[index[EdgeKey(WatchPair(u, v))]]})
  {
    WatchEdgeIff(Members(kept), u, v);
    var q := if WatchPair(u, v) in Members(kept) then WatchPair(u, v) else WatchPair(v, u);
    var k :| 0 <= k < |kept| && kept[k] == q;
    assert EdgeKey(kept[k]) == EdgeKey(WatchPair(u, v));
    WatchEdgeIff({kept[index[EdgeKey(WatchPair(u, v))]]}, u, v);
  }

  lemma {:induction false} SoundStateMono(elev: seq<bool>, e: Edges, f: Edges, from: nat, to: nat, st: nat)
    requires e <= f && SoundState(false, elev, e, from, to, st)
    ensures SoundState(false, elev, f, from, to, st)
  {
    ReachMono(e, f, OpOf(st), to);
    if Flag(st) == 0 {
      CrossWalkMono(elev, e, f, OpOf(st), to);
    }
  }

  /** Reading the walk one state further back. */
  lemma {:induction false} ReadBack(g: Constraints, kept: seq<WatchPair>, index: map<(nat, nat), nat>, used: set<nat>,
                 from: nat, to: nat, par: nat, st: nat, byWatch: bool) returns (more: set<nat>)
    requires FirstOnEdge(index, kept) && g.ws == Members(kept) && Link(g, par, st, byWatch)
    requires SoundState(false, g.elev, g.dep + WatchEdges(Chosen(kept, used)), from, to, st)
    ensures byWatch ==> EdgeKey(WatchPair(OpOf(par), OpOf(st))) in index &&
                        more == used + {index[EdgeKey(WatchPair(OpOf(par), OpOf(st)))]}
    ensures !byWatch ==> more == used
    ensures SoundState(false, g.elev, g.dep + WatchEdges(Chosen(kept, more)), from, to, par)
  {
    more := used;
    var u, v := OpOf(par), OpOf(st);
    if byWatch {
      IndexedEdge(index, kept, u, v);
      var k := index[EdgeKey(WatchPair(u, v))];
      more := used + {k};
      assert Chosen(kept, more) == Chosen(kept, used) + {kept[k]};
      WatchEdgesMono({kept[k]}, Chosen(kept, more));
      WatchEdgesMono(Chosen(kept, used), Chosen(kept, more));
    }
    var e := g.dep + WatchEdges(Chosen(kept, more));
    SoundStateMono(g.elev, g.dep + WatchEdges(Chosen(kept, used)), e, from, to, st);
    assert State(u, Flag(par)) == par;
    BackwardSound(g.elev, e, from, to, st, u, Flag(par));
  }

  /** The used watches in kept's order: the sorted, compacted index list. */
  method Collect(kept: seq<WatchPair>, index: map<(nat, nat), nat>, used: set<nat>) returns (with: seq<WatchPair>)
    requires FirstOnEdge(index, kept) && forall k :: k in used ==> exists e :: e in index && index[e] == k
    ensures Members(with) == Chosen(kept, used) && DistinctKeys(with)
    ensures forall q :: q in with ==> q in kept
  {
    with := [];
    for k := 0 to |kept|
      invariant forall q :: q in with <==> exists j :: 0 <= j < k && j in used && kept[j] == q
      invariant DistinctKeys(with)
    {
      if k in used {
        forall q | q in with
          ensures EdgeKey(q) != EdgeKey(kept[k])
        {
          var j :| 0 <= j < k && j in used && kept[j] == q;
          var e :| e in index && index[e] == k;
          assert EdgeKey(kept[j]) in index && index[EdgeKey(kept[j])] <= j;
        }
        with := with + [kept[k]];
      }
    }
  }

  /** The watches of kept on the walk the search left in its marks. */
  method ReadWalk(marks: PathMarks, ghost g: Constraints, kept: seq<WatchPair>, index: map<(nat, nat), nat>,
                  from: nat, to: nat, ghost hist: seq<nat>) returns (with: seq<WatchPair>)
    requires FirstOnEdge(index, kept) && g.ws == Members(kept)
    requires Parents(g, hist, marks.parent, marks.byWatch) && hist[0] == State(from, 0) && State(to, 1) in hist
    ensures DistinctKeys(with) && forall q :: q in with ==> q in kept
    ensures CrossWalk(g.elev, g.dep + WatchEdges(Members(with)), from, to)
  {
    hide SoundState, Parents, Link, FirstOnEdge, Chosen, WatchEdges, CrossWalk, DistinctKeys;
    var st := State(to, 1);
    var used: set<nat> := {};
    ghost var at: nat :| at < |hist| && hist[at] == st;
    WalkEnd(g.elev, g.dep + WatchEdges(Chosen(kept, used)), from, to);
    ParentOf(g, hist, marks.parent, marks.byWatch, at);
    while marks.parent[st] >= 0
      invariant at < |hist| && hist[at] == st && st < |marks.parent|
      invariant marks.parent[st] >= 0 <==> at > 0
      invariant forall k :: k in used ==> exists e :: e in index && index[e] == k
      invariant SoundState(false, g.elev, g.dep + WatchEdges(Chosen(kept, used)), from, to, st)
      decreases at
    {
      ghost var j := ParentIndex(g, hist, marks.parent, marks.byWatch, at);
      var par: nat := marks.parent[st];
      ghost var more := ReadBack(g, kept, index, used, from, to, par, st, marks.byWatch[st]);
      if marks.byWatch[st] {
        used := used + {index[EdgeKey(WatchPair(OpOf(par), OpOf(st)))]};
      }
      st, at := par, j;
      ParentOf(g, hist, marks.parent, marks.byWatch, at);
    }
    with := Collect(kept, index, used);
    WalkStart(g.elev, g.dep + WatchEdges(Chosen(kept, used)), from, to);
  }

  lemma {:induction false} WalkEnd(elev: seq<bool>, e: Edges, from: nat, to: nat)
    ensures SoundState(false, elev, e, from, to, State(to, 1))
  {
    ReachRefl(e, to);
  }

  lemma {:induction false} WalkStart(elev: seq<bool>, e: Edges, from: nat, to: nat)
    requires SoundState(false, elev, e, from, to, State(from, 0))
    ensures CrossWalk(elev, e, from, to)
  {
  }

  /** witness: the kept watches on one walk through which p closes a
      cross-class cycle in lg, which holds exactly the kept watches. */
  method Witness(lg: LevelGraph, p: WatchPair, kept: seq<WatchPair>, index: map<(nat, nat), nat>)
    returns (with: seq<WatchPair>)
    requires lg.Valid() && lg.ScratchValid() && lg.pairs == multiset(kept) && FirstOnEdge(index, kept)
    requires p.gated < |lg.elev| && p.watched < |lg.elev|
    requires Closes(lg.elev, AllEdges(lg.Value()), p)
    modifies lg.seen
    ensures lg.ScratchValid()
    ensures DistinctKeys(with) && forall q :: q in with ==> q in kept
    ensures Excludes(lg.elev, ListEdges(lg.waiters), Members(with), p)
  {
    hide Parents, Marking, FirstOnEdge, CrossWalk, WatchEdges, ListEdges;
    assert lg.Value().ws == Members(kept);
    var from, to := p.watched, p.gated;
    var found;
    ghost var hist;
    found, hist := CrossPath(lg, from, to);
    if !found {
      from, to := p.gated, p.watched;
      found, hist := CrossPath(lg, from, to);
    }
    with := ReadWalk(lg.seen, lg.Value(), kept, index, from, to, hist);
  }

  lemma {:induction false} ParentOf(g: Constraints, hist: seq<nat>, parent: seq<int>, byWatch: seq<bool>, k: nat)
    requires Parents(g, hist, parent, byWatch) && k < |hist|
    ensures hist[k] < |parent| && (parent[hist[k]] >= 0 <==> k > 0)
  {
    if k > 0 {
      assert HasParent(g, hist, parent, byWatch, k);
    }
  }

  lemma {:induction false} ParentIndex(g: Constraints, hist: seq<nat>, parent: seq<int>, byWatch: seq<bool>,
                                       k: nat) returns (j: nat)
    requires Parents(g, hist, parent, byWatch) && 0 < k < |hist|
    ensures j < k && hist[k] < |parent| && hist[k] < |byWatch| && parent[hist[k]] == hist[j]
    ensures Link(g, hist[j], hist[k], byWatch[hist[k]])
  {
    assert HasParent(g, hist, parent, byWatch, k);
    j :| 0 <= j < k && parent[hist[k]] == hist[j] && Link(g, hist[j], hist[k], byWatch[hist[k]]);
  }

  /** The indexes of the watches each op is on, of the first limit ones. */
  ghost predicate OnWatches(at: map<nat, seq<nat>>, with: seq<WatchPair>, limit: nat)
    requires limit <= |with|
  {
    && (forall op, i :: 0 <= i < limit && Touches(with[i], op) ==> op in at && i in at[op])
    && (forall op :: op in at ==> ListsWatches(at[op], with, limit, op))
  }

  ghost predicate ListsWatches(list: seq<nat>, with: seq<WatchPair>, limit: nat, op: nat)
    requires limit <= |with|
  {
    forall j :: 0 <= j < |list| ==> list[j] < limit && Touches(with[list[j]], op)
  }

  function Noted(at: map<nat, seq<nat>>, op: nat, i: nat): map<nat, seq<nat>> {
    at[op := (if op in at then at[op] else []) + [i]]
  }

  lemma {:induction false} NotedBoth(at: map<nat, seq<nat>>, with: seq<WatchPair>, i: nat)
    requires i < |with| && OnWatches(at, with, i)
    ensures OnWatches(Noted(Noted(at, with[i].gated, i), with[i].watched, i), with, i + 1)
  {
    var one := Noted(at, with[i].gated, i);
    var two := Noted(one, with[i].watched, i);
    forall op, k | 0 <= k < i + 1 && Touches(with[k], op)
      ensures op in two && k in two[op]
    {
      if k < i {
        assert op in at && k in at[op];
      }
    }
    forall op | op in two
      ensures ListsWatches(two[op], with, i + 1, op)
    {
      NotedAt(at, with[i].gated, i, op);
      NotedAt(one, with[i].watched, i, op);
      if op in at {
        assert ListsWatches(at[op], with, i, op);
      }
      hide Noted;
    }
  }

  lemma {:induction false} NotedAt(at: map<nat, seq<nat>>, op: nat, i: nat, other: nat)
    ensures other in Noted(at, op, i) <==> other in at || other == op
    ensures other in Noted(at, op, i) && other != op ==> Noted(at, op, i)[other] == at[other]
    ensures Noted(at, op, i)[op] == (if op in at then at[op] else []) + [i]
  {
  }

  method IndexWatches(with: seq<WatchPair>) returns (at: map<nat, seq<nat>>)
    ensures OnWatches(at, with, |with|)
  {
    hide OnWatches;
    at := map[];
    NothingOn(with);
    for i := 0 to |with|
      invariant OnWatches(at, with, i)
    {
      NotedBoth(at, with, i);
      at := Noted(at, with[i].gated, i);
      at := Noted(at, with[i].watched, i);
    }
  }

  lemma {:induction false} NothingOn(with: seq<WatchPair>)
    ensures OnWatches(map[], with, 0)
  {
  }

  /** No dependency in or out, not an end of p, and on exactly two watches. */
  predicate Plain(waiters: seq<seq<nat>>, incoming: seq<seq<nat>>, at: map<nat, seq<nat>>, p: WatchPair, op: nat)
    requires op < |waiters| && op < |incoming|
  {
    && op != p.gated && op != p.watched && op in at && |at[op]| == 2
    && |waiters[op]| == 0 && |incoming[op]| == 0
  }

  lemma {:induction false} PlainLinks(lg: LevelGraph, at: map<nat, seq<nat>>, with: seq<WatchPair>, p: WatchPair,
                                      op: nat, i: nat, j: nat)
    requires lg.Valid() && OnWatches(at, with, |with|) && op < |lg.elev| && Plain(lg.waiters, lg.incoming, at, p, op)
    requires i < |with| && j < |with| && Touches(with[i], op) && j in at[op] && i != j
    ensures PlainBetween(ListEdges(lg.waiters), with, p, op, with[i], with[j])
  {
    assert i in at[op];
    assert ListsWatches(at[op], with, |with|, op);
    assert at[op] == [at[op][0], at[op][1]];
    forall u: nat, v: nat | (u, v) in ListEdges(lg.waiters)
      ensures u != op && v != op
    {
      assert v in lg.waiters[u] && v < |lg.elev|;
      assert u in lg.incoming[v];
    }
  }

  ghost function Flatten(units: seq<seq<WatchPair>>): seq<WatchPair> {
    if units == [] then [] else Flatten(units[..|units| - 1]) + units[|units| - 1]
  }

  /** order lists, without repeats, the watches of with already placed. */
  ghost predicate Placed(with: seq<WatchPair>, taken: seq<bool>, order: seq<nat>, flat: seq<WatchPair>) {
    && |taken| == |with| && |order| == |flat|
    && (forall k :: 0 <= k < |order| ==> order[k] < |with| && flat[k] == with[order[k]])
    && (forall j, k :: 0 <= j < k < |order| ==> order[j] != order[k])
    && (forall i :: 0 <= i < |with| ==> (taken[i] <==> i in order))
  }

  lemma {:induction false} PlaceNext(with: seq<WatchPair>, taken: seq<bool>, order: seq<nat>, flat: seq<WatchPair>,
                                     i: nat)
    requires Placed(with, taken, order, flat) && i < |with| && !taken[i]
    ensures Placed(with, taken[i := true], order + [i], flat + [with[i]])
    ensures |order| < |with|
  {
    DistinctBelow(order + [i], |with|);
  }

  lemma {:induction false} SeriesExtends(dep: Edges, with: seq<WatchPair>, p: WatchPair, unit: seq<WatchPair>,
                                         q: WatchPair, r: WatchPair, op: nat)
    requires Series(dep, with, p, unit) && q in unit && r in with && PlainBetween(dep, with, p, op, q, r)
    ensures Series(dep, with, p, unit + [r])
  {
    var more := unit + [r];
    forall m | 0 < m < |more|
      ensures Continues(dep, with, p, more, m)
    {
      if m < |unit| {
        assert Continues(dep, with, p, unit, m);
        var l, o :| 0 <= l < m && PlainBetween(dep, with, p, o, unit[l], unit[m]);
        assert PlainBetween(dep, with, p, o, more[l], more[m]);
      } else {
        var l :| 0 <= l < |unit| && unit[l] == q;
        assert PlainBetween(dep, with, p, op, more[l], more[m]);
      }
    }
  }

  /** Follows plain ops from end on, taking one watch after the other. */
  method ExtendSeries(lg: LevelGraph, with: seq<WatchPair>, p: WatchPair, at: map<nat, seq<nat>>, end: nat,
                      ghost from: nat,
                      was: seq<bool>, unit: seq<WatchPair>, ghost order: seq<nat>, ghost head: seq<WatchPair>)
    returns (taken: seq<bool>, longer: seq<WatchPair>, ghost more: seq<nat>)
    requires lg.Valid() && OnWatches(at, with, |with|) && SoundList(lg.elev, with)
    requires Placed(with, was, order, head + unit) && Series(ListEdges(lg.waiters), with, p, unit)
    requires from < |with| && was[from] && with[from] in unit && Touches(with[from], end)
    ensures Placed(with, taken, more, head + longer) && Series(ListEdges(lg.waiters), with, p, longer)
    ensures unit <= longer && order <= more && (forall i :: 0 <= i < |was| && was[i] ==> taken[i])
  {
    taken, longer, more := was, unit, order;
    var op: nat := end;
    ghost var cur: nat := from;
    while Plain(lg.waiters, lg.incoming, at, p, op)
      invariant op < |lg.elev| && cur < |with| && Touches(with[cur], op) && with[cur] in longer
      invariant Placed(with, taken, more, head + longer) && taken[cur]
      invariant Series(ListEdges(lg.waiters), with, p, longer)
      invariant unit <= longer && order <= more && (forall i :: 0 <= i < |was| && was[i] ==> taken[i])
      decreases |with| - |more|
    {
      assert ListsWatches(at[op], with, |with|, op);
      var next: nat := at[op][0];
      if taken[next] {
        next := at[op][1];
      }
      if taken[next] {
        break;
      }
      PlainLinks(lg, at, with, p, op, cur, next);
      SeriesExtends(ListEdges(lg.waiters), with, p, longer, with[cur], with[next], op);
      PlaceNext(with, taken, more, head + longer, next);
      assert head + longer + [with[next]] == head + (longer + [with[next]]);
      taken := taken[next := true];
      longer := longer + [with[next]];
      more := more + [next];
      op := with[next].gated + with[next].watched - op;
      cur := next;
    }
  }

  /** seriesUnits: with cut into runs that are equivalent for p. */
  method SeriesUnits(lg: LevelGraph, with: seq<WatchPair>, p: WatchPair) returns (units: seq<seq<WatchPair>>)
    requires lg.Valid() && SoundList(lg.elev, with) && DistinctKeys(with)
    ensures forall k :: 0 <= k < |units| ==> Series(ListEdges(lg.waiters), with, p, units[k])
    ensures Distinct(Flatten(units))
    ensures forall q :: q in Flatten(units) <==> q in with
  {
    hide OnWatches, Series, SoundList, DistinctKeys, LevelGraph.Valid, Distinct;
    var at := IndexWatches(with);
    var taken := seq(|with|, _ => false);
    ghost var order: seq<nat> := [];
    units := [];
    for i := 0 to |with|
      invariant Placed(with, taken, order, Flatten(units)) && forall k :: 0 <= k < i ==> taken[k]
      invariant forall k :: 0 <= k < |units| ==> Series(ListEdges(lg.waiters), with, p, units[k])
    {
      if !taken[i] {
        ghost var head := Flatten(units);
        PlaceNext(with, taken, order, head, i);
        taken, order := taken[i := true], order + [i];
        var unit := [with[i]];
        taken, unit, order := ExtendSeries(lg, with, p, at, with[i].gated, i, taken, unit, order, head);
        taken, unit, order := ExtendSeries(lg, with, p, at, with[i].watched, i, taken, unit, order, head);
        units := units + [unit];
        assert units[..|units| - 1] + [unit] == units;
      }
    }
    AllPlaced(with, taken, order, Flatten(units));
  }

  lemma {:induction false} AllPlaced(with: seq<WatchPair>, taken: seq<bool>, order: seq<nat>, flat: seq<WatchPair>)
    requires Placed(with, taken, order, flat) && DistinctKeys(with) && forall k :: 0 <= k < |with| ==> taken[k]
    ensures Distinct(flat)
    ensures forall q :: q in flat <==> q in with
  {
    forall j, k | 0 <= j < k < |flat|
      ensures flat[j] != flat[k]
    {
      assert order[j] != order[k];
    }
    forall q | q in with
      ensures q in flat
    {
      var i: nat :| i < |with| && with[i] == q;
      assert taken[i] && i in order;
      var k :| 0 <= k < |order| && order[k] == i;
    }
  }

  /** The graph holds exactly the watches of ws, each once. */
  ghost predicate HoldsOnly(lg: LevelGraph, ws: set<WatchPair>)
    reads lg
  {
    lg.Valid() && lg.pairs == multiset(ws)
  }

  lemma {:induction false} HoldsOnlyEdges(lg: LevelGraph, ws: set<WatchPair>)
    requires HoldsOnly(lg, ws)
    ensures AllEdges(lg.Value()) == ListEdges(lg.waiters) + WatchEdges(ws)
  {
    assert lg.Value().ws == ws;
  }

  lemma {:induction false} MembersNext(unit: seq<WatchPair>, k: nat)
    requires k < |unit| && Distinct(unit)
    ensures Members(unit[..k + 1]) == Members(unit[..k]) + {unit[k]} && unit[k] !in Members(unit[..k])
  {
    assert unit[..k + 1] == unit[..k] + [unit[k]];
  }

  method RemoveUnit(lg: LevelGraph, unit: seq<WatchPair>, ghost ws: set<WatchPair>)
    requires HoldsOnly(lg, ws) && Distinct(unit) && Members(unit) <= ws
    modifies lg
    ensures HoldsOnly(lg, ws - Members(unit))
  {
    hide LevelGraph.Valid;
    for k := 0 to |unit|
      invariant HoldsOnly(lg, ws - Members(unit[..k]))
    {
      MembersNext(unit, k);
      assert ws - Members(unit[..k + 1]) == ws - Members(unit[..k]) - {unit[k]};
      lg.RemoveWatch(unit[k]);
    }
    assert unit[..|unit|] == unit;
  }

  lemma {:induction false} RestoredNext(base: set<WatchPair>, unit: seq<WatchPair>, k: nat)
    requires k < |unit| && Distinct(unit) && Members(unit) !! base
    ensures multiset(base + Members(unit[..k + 1])) == multiset(base + Members(unit[..k])) + multiset{unit[k]}
  {
    MembersNext(unit, k);
    assert unit[k] in Members(unit);
    assert base + Members(unit[..k + 1]) == base + Members(unit[..k]) + {unit[k]};
  }

  lemma {:induction false} ListSame(elev: seq<bool>, unit: seq<WatchPair>, k: nat)
    requires k < |unit| && AllSameClass(elev, unit)
    ensures SameClass(elev, unit[k])
  {
  }

  method RestoreUnit(lg: LevelGraph, unit: seq<WatchPair>, ghost base: set<WatchPair>)
    requires HoldsOnly(lg, base) && Distinct(unit) && Members(unit) !! base && AllSameClass(lg.elev, unit)
    modifies lg
    ensures HoldsOnly(lg, base + Members(unit))
  {
    hide LevelGraph.Valid, Distinct, AllSameClass;
    for k := 0 to |unit|
      invariant HoldsOnly(lg, base + Members(unit[..k]))
    {
      MembersNext(unit, k);
      RestoredNext(base, unit, k);
      ListSame(lg.elev, unit, k);
      lg.AddWatch(unit[k]);
    }
    assert unit[..|unit|] == unit;
  }

  /** One trial: the run stays out when p still does not fit without it. */
  method TryUnit(lg: LevelGraph, unit: seq<WatchPair>, p: WatchPair, ghost ws: set<WatchPair>) returns (closes: bool)
    requires HoldsOnly(lg, ws) && lg.ScratchValid() && Distinct(unit) && Members(unit) <= ws
    requires AllSameClass(lg.elev, unit) && p.gated < |lg.elev| && p.watched < |lg.elev|
    modifies lg, lg.seen, lg.back
    ensures closes <==> Excludes(lg.elev, ListEdges(lg.waiters), ws - Members(unit), p)
    ensures HoldsOnly(lg, if closes then ws - Members(unit) else ws) && lg.ScratchValid()
  {
    hide LevelGraph.Valid, ListEdges, AllEdges, WatchEdges, Closes;
    RemoveUnit(lg, unit, ws);
    HoldsOnlyEdges(lg, ws - Members(unit));
    closes := ClosesCrossCycle(lg, p);
    if !closes {
      RestoreUnit(lg, unit, ws - Members(unit));
      assert ws - Members(unit) + Members(unit) == ws;
    }
  }

  /** ws is a minimal set next to which p does not fit. */
  ghost predicate Minimal(elev: seq<bool>, dep: Edges, ws: set<WatchPair>, p: WatchPair) {
    Excludes(elev, dep, ws, p) && forall q :: q in ws ==> !Excludes(elev, dep, ws - {q}, p)
  }

  /** The trial of unit: dropped, or kept because p fits without it. */
  ghost predicate Tried(elev: seq<bool>, dep: Edges, ws: set<WatchPair>, p: WatchPair, unit: seq<WatchPair>) {
    Members(unit) !! ws || (Members(unit) <= ws && !Excludes(elev, dep, ws - Members(unit), p))
  }

  lemma {:induction false} TriedStays(elev: seq<bool>, dep: Edges, ws: set<WatchPair>, p: WatchPair,
                                      unit: seq<WatchPair>, gone: seq<WatchPair>)
    requires Tried(elev, dep, ws, p, unit) && Members(unit) !! Members(gone)
    ensures Tried(elev, dep, ws - Members(gone), p, unit)
  {
    if Members(unit) <= ws && Excludes(elev, dep, ws - Members(gone) - Members(unit), p) {
      ExcludesMono(elev, dep, ws - Members(gone) - Members(unit), ws - Members(unit), p);
      assert Members(unit) !! ws;
    }
  }

  lemma {:induction false} FlattenMember(units: seq<seq<WatchPair>>, q: WatchPair)
    ensures q in Flatten(units) <==> exists k :: 0 <= k < |units| && q in units[k]
  {
    if units != [] {
      FlattenMember(units[..|units| - 1], q);
      assert forall k :: 0 <= k < |units| - 1 ==> units[..|units| - 1][k] == units[k];
    }
  }

  lemma {:induction false} FlattenDistinct(units: seq<seq<WatchPair>>, j: nat, k: nat)
    requires Distinct(Flatten(units)) && j < k < |units|
    ensures Members(units[j]) !! Members(units[k])
    decreases |units|
  {
    var rest := units[..|units| - 1];
    assert Flatten(units) == Flatten(rest) + units[|units| - 1];
    assert Distinct(Flatten(rest)) by {
      assert forall i :: 0 <= i < |Flatten(rest)| ==> Flatten(rest)[i] == Flatten(units)[i];
    }
    if k < |units| - 1 {
      FlattenDistinct(rest, j, k);
    } else {
      forall a, b | 0 <= a < |Flatten(rest)| && 0 <= b < |units[k]|
        ensures Flatten(rest)[a] != units[k][b]
      {
        assert Flatten(units)[a] == Flatten(rest)[a] && Flatten(units)[|Flatten(rest)| + b] == units[k][b];
      }
      forall q | q in units[j]
        ensures q in Flatten(rest)
      {
        FlattenMember(rest, q);
        assert rest[j] == units[j];
      }
    }
  }

  lemma {:induction false} FlattenUnit(units: seq<seq<WatchPair>>, k: nat)
    requires Distinct(Flatten(units)) && k < |units|
    ensures Distinct(units[k])
    decreases |units|
  {
    var rest, last := units[..|units| - 1], units[|units| - 1];
    assert Flatten(units) == Flatten(rest) + last;
    DistinctParts(Flatten(rest), last);
    hide Distinct;
    if k < |units| - 1 {
      FlattenUnit(rest, k);
    }
  }

  lemma {:induction false} DistinctParts(a: seq<WatchPair>, b: seq<WatchPair>)
    requires Distinct(a + b)
    ensures Distinct(a) && Distinct(b)
  {
    var all := a + b;
    assert forall i :: 0 <= i < |a| ==> a[i] == all[i];
    assert forall i :: 0 <= i < |b| ==> b[i] == all[|a| + i];
  }

  /** The runs up to done have been tried, the later ones are untouched. */
  ghost predicate Trials(elev: seq<bool>, dep: Edges, p: WatchPair, units: seq<seq<WatchPair>>, done: nat,
                         ws: set<WatchPair>)
  {
    && Excludes(elev, dep, ws, p)
    && (forall k :: 0 <= k < done && k < |units| ==> Tried(elev, dep, ws, p, units[k]))
    && (forall k :: done <= k < |units| ==> Members(units[k]) <= ws)
  }

  /** A set in which every run was tried is minimal: losing one watch is as
      good as losing its run. */
  lemma {:induction false} TriedMinimal(elev: seq<bool>, dep: Edges, with: seq<WatchPair>, p: WatchPair,
                                        units: seq<seq<WatchPair>>, ws: set<WatchPair>)
    requires SoundList(elev, with) && ws <= Members(with) && Trials(elev, dep, p, units, |units|, ws)
    requires forall k :: 0 <= k < |units| ==> Series(dep, with, p, units[k])
    requires forall q :: q in with ==> q in Flatten(units)
    ensures Minimal(elev, dep, ws, p)
  {
    forall q | q in ws
      ensures !Excludes(elev, dep, ws - {q}, p)
    {
      FlattenMember(units, q);
      var k :| 0 <= k < |units| && q in units[k];
      assert q in Members(units[k]);
      if Excludes(elev, dep, ws - {q}, p) {
        SeriesUseless(elev, dep, with, p, units[k], ws, {q});
        assert false;
      }
    }
  }

  lemma {:induction false} TrialNext(elev: seq<bool>, dep: Edges, p: WatchPair, units: seq<seq<WatchPair>>, done: nat,
                                     ws: set<WatchPair>)
    requires Trials(elev, dep, p, units, done, ws) && done < |units| && Distinct(Flatten(units))
    ensures Members(units[done]) <= ws
    ensures !Excludes(elev, dep, ws - Members(units[done]), p) ==> Trials(elev, dep, p, units, done + 1, ws)
    ensures Excludes(elev, dep, ws - Members(units[done]), p) ==>
              Trials(elev, dep, p, units, done + 1, ws - Members(units[done]))
  {
    var unit := units[done];
    if Excludes(elev, dep, ws - Members(unit), p) {
      forall k | 0 <= k < done
        ensures Tried(elev, dep, ws - Members(unit), p, units[k])
      {
        FlattenDistinct(units, k, done);
        TriedStays(elev, dep, ws, p, units[k], unit);
      }
      forall k | done + 1 <= k < |units|
        ensures Members(units[k]) <= ws - Members(unit)
      {
        FlattenDistinct(units, done, k);
      }
    }
  }

  lemma {:induction false} TrialsStart(elev: seq<bool>, dep: Edges, with: seq<WatchPair>, p: WatchPair,
                                       units: seq<seq<WatchPair>>)
    requires Excludes(elev, dep, Members(with), p)
    requires forall k :: 0 <= k < |units| ==> Series(dep, with, p, units[k])
    ensures Trials(elev, dep, p, units, 0, Members(with))
  {
  }

  lemma {:induction false} UnitSound(elev: seq<bool>, dep: Edges, with: seq<WatchPair>, p: WatchPair,
                                     unit: seq<WatchPair>)
    requires SoundList(elev, with) && Series(dep, with, p, unit)
    ensures AllSameClass(elev, unit)
  {
    forall k | 0 <= k < |unit|
      ensures SameClass(elev, unit[k])
    {
      assert unit[k] in with;
    }
  }

  /** shrinkConflict: with reduced to a minimal conflict of p. */
  method ShrinkConflict(deps: LevelGraph, with: seq<WatchPair>, p: WatchPair) returns (out: seq<WatchPair>)
    requires deps.Valid() && deps.ScratchValid() && SoundList(deps.elev, with) && DistinctKeys(with)
    requires p.gated < |deps.elev| && p.watched < |deps.elev|
    requires Excludes(deps.elev, ListEdges(deps.waiters), Members(with), p)
    modifies deps.seen, deps.back
    ensures deps.ScratchValid() && Members(out) <= Members(with)
    ensures Minimal(deps.elev, ListEdges(deps.waiters), Members(out), p)
  {
    hide Excludes, Series, Trials, DistinctKeys, Minimal, ListEdges, LevelGraph.Valid, Flatten, Distinct, Members,
         SoundList;
    ghost var dep, ws := ListEdges(deps.waiters), Members(with);
    SoundSame(deps.elev, with);
    var lg := WithWatches(deps, with);
    DistinctMultiset(with);
    var units := SeriesUnits(deps, with, p);
    var removed: set<WatchPair> := {};
    TrialsStart(deps.elev, dep, with, p, units);
    for i := 0 to |units|
      invariant lg.elev == deps.elev && lg.waiters == deps.waiters && lg.seen == deps.seen && lg.back == deps.back
      invariant HoldsOnly(lg, ws) && lg.ScratchValid() && fresh(lg)
      invariant ws == Members(with) - removed && Trials(deps.elev, dep, p, units, i, ws)
    {
      FlattenUnit(units, i);
      TrialNext(deps.elev, dep, p, units, i, ws);
      UnitSound(deps.elev, dep, with, p, units[i]);
      var closes := TryUnit(lg, units[i], p, ws);
      if closes {
        removed := removed + Members(units[i]);
        ws := ws - Members(units[i]);
      }
    }
    out := Without(with, removed);
    WithoutMembers(with, removed);
    TriedMinimal(deps.elev, dep, with, p, units, ws);
  }

  lemma {:induction false} SoundSame(elev: seq<bool>, with: seq<WatchPair>)
    requires SoundList(elev, with)
    ensures AllSameClass(elev, with)
  {
  }

  lemma {:induction false} WithoutMembers(with: seq<WatchPair>, removed: set<WatchPair>)
    ensures Members(Without(with, removed)) == Members(with) - removed
  {
  }

  function Without(with: seq<WatchPair>, removed: set<WatchPair>): (out: seq<WatchPair>)
    ensures forall q :: q in out <==> q in with && q !in removed
  {
    if with == [] then [] else
      var rest := Without(with[..|with| - 1], removed);
      if with[|with| - 1] in removed then rest else rest + [with[|with| - 1]]
  }

  lemma {:induction false} DistinctMultiset(with: seq<WatchPair>)
    requires DistinctKeys(with)
    ensures multiset(with) == multiset(Members(with))
  {
    if with != [] {
      var rest, last := with[..|with| - 1], with[|with| - 1];
      DistinctMultiset(rest);
      assert with == rest + [last];
      assert Members(with) == Members(rest) + {last};
      assert last !in rest;
    }
  }
}
