/** Which change watches the chunk order keeps: keptWatches of
    api/apply_levels.go and conflictsOf of api/apply_conflicts.go. */
module KeptWatches {
  import opened Walks
  import opened Levels
  import opened LevelGraphs
  import opened Ops
  import opened DepGraphs
  import opened ApplyLevels
  import opened CrossSearch
  import opened Conflicts

  /** Op i watches, as watch k, an op of its own class other than itself. */
  predicate Paired(byId: map<string, nat>, body: seq<Op>, i: nat, k: nat)
    requires i < |body| && k < |body[i].watch|
  {
    && body[i].ifChanged && body[i].watch[k] in byId
    && byId[body[i].watch[k]] < |body| && byId[body[i].watch[k]] != i
    && body[byId[body[i].watch[k]]].elevate == body[i].elevate
  }

  function PairsOf(byId: map<string, nat>, body: seq<Op>, i: nat, upTo: nat): seq<WatchPair>
    requires i < |body| && upTo <= |body[i].watch|
  {
    if upTo == 0 then []
    else PairsOf(byId, body, i, upTo - 1) +
         (if Paired(byId, body, i, upTo - 1) then [WatchPair(i, byId[body[i].watch[upTo - 1]])] else [])
  }

  /** The same-class watches of the first upTo ops, in declaration order. */
  function WatchList(byId: map<string, nat>, body: seq<Op>, upTo: nat): seq<WatchPair>
    requires upTo <= |body|
  {
    if upTo == 0 then []
    else WatchList(byId, body, upTo - 1) + PairsOf(byId, body, upTo - 1, |body[upTo - 1].watch|)
  }

  lemma {:induction false} PairsOfMember(byId: map<string, nat>, body: seq<Op>, i: nat, upTo: nat, p: WatchPair)
    requires i < |body| && upTo <= |body[i].watch|
    ensures p in PairsOf(byId, body, i, upTo) <==>
            p.gated == i && exists k :: 0 <= k < upTo && Paired(byId, body, i, k) && byId[body[i].watch[k]] == p.watched
  {
    if upTo > 0 {
      PairsOfMember(byId, body, i, upTo - 1, p);
    }
  }

  /** A pair is listed exactly when its first op is change-gated and one of
      its watches names the other, of the same class. */
  lemma {:induction false} WatchListMember(byId: map<string, nat>, body: seq<Op>, upTo: nat, p: WatchPair)
    requires upTo <= |body|
    ensures p in WatchList(byId, body, upTo) <==>
            p.gated < upTo && exists k :: 0 <= k < |body[p.gated].watch| && Paired(byId, body, p.gated, k) &&
                                          byId[body[p.gated].watch[k]] == p.watched
  {
    if upTo > 0 {
      WatchListMember(byId, body, upTo - 1, p);
      PairsOfMember(byId, body, upTo - 1, |body[upTo - 1].watch|, p);
    }
  }

  lemma {:induction false} WatchListSound(byId: map<string, nat>, body: seq<Op>)
    ensures SoundList(Classes(body), WatchList(byId, body, |body|))
  {
    var all := WatchList(byId, body, |body|);
    forall k | 0 <= k < |all|
      ensures SameClass(Classes(body), all[k]) && all[k].gated != all[k].watched
    {
      WatchListMember(byId, body, |body|, all[k]);
    }
  }

  /** sameClassWatches. */
  method SameClassWatches(g: DepGraph, body: seq<Op>) returns (pairs: seq<WatchPair>)
    requires GraphOf(g, body)
    ensures pairs == WatchList(g.byId, body, |body|)
  {
    hide GraphOk, IndexesIds;
    pairs := [];
    for i := 0 to |body|
      invariant pairs == WatchList(g.byId, body, i)
    {
      var op := body[i];
      ghost var was := pairs;
      if !op.ifChanged {
        NoPairs(g.byId, body, i, |op.watch|);
        continue;
      }
      for k := 0 to |op.watch|
        invariant pairs == was + PairsOf(g.byId, body, i, k)
      {
        var w := op.watch[k];
        IndexInBodyIfAny(g.byId, body, w);
        if w in g.byId {
          var j := g.byId[w];
          if j != i && body[j].elevate == op.elevate {
            pairs := pairs + [WatchPair(i, j)];
          }
        }
      }
    }
  }

  lemma {:induction false} IndexInBodyIfAny(byId: map<string, nat>, body: seq<Op>, id: string)
    requires IndexesIds(byId, body)
    ensures id in byId ==> byId[id] < |body|
  {
  }

  lemma {:induction false} NoPairs(byId: map<string, nat>, body: seq<Op>, i: nat, upTo: nat)
    requires i < |body| && upTo <= |body[i].watch| && !body[i].ifChanged
    ensures PairsOf(byId, body, i, upTo) == []
  {
    if upTo > 0 {
      NoPairs(byId, body, i, upTo - 1);
    }
  }

  /** Watch k of op i, in the ops' own fields: i is change-gated, and p leads to
      the first op with the watched ID, another one of the same class. */
  predicate IsWatch(body: seq<Op>, i: nat, k: nat, p: WatchPair) {
    && i < |body| && k < |body[i].watch| && body[i].ifChanged && p.gated == i
    && p.watched < |body| && p.watched != i && body[i].watch[k] != "" && body[p.watched].id == body[i].watch[k]
    && (forall j :: 0 <= j < p.watched ==> body[j].id != body[i].watch[k])
    && body[p.watched].elevate == body[i].elevate
  }

  /** Where a watch is declared: the gated op and the position in its list. */
  datatype Place = Place(op: nat, at: nat)

  predicate Sooner(a: Place, b: Place) {
    a.op < b.op || (a.op == b.op && a.at < b.at)
  }

  /** pairs are the watches at places, in declaration order, and no watch
      declared before end is missing. */
  ghost predicate Declared(body: seq<Op>, pairs: seq<WatchPair>, places: seq<Place>, end: Place) {
    && |places| == |pairs| && (forall i, j :: 0 <= i < j < |places| ==> Sooner(places[i], places[j]))
    && (forall m :: 0 <= m < |pairs| ==>
          Sooner(places[m], end) && IsWatch(body, places[m].op, places[m].at, pairs[m]))
    && (forall i: nat, k: nat, p :: Sooner(Place(i, k), end) && IsWatch(body, i, k, p) ==> Place(i, k) in places)
  }

  lemma {:induction false} PairedIff(byId: map<string, nat>, body: seq<Op>, i: nat, k: nat)
    requires IndexesIds(byId, body) && i < |body| && k < |body[i].watch|
    ensures Paired(byId, body, i, k) ==> IsWatch(body, i, k, WatchPair(i, byId[body[i].watch[k]]))
    ensures forall p :: IsWatch(body, i, k, p) ==> Paired(byId, body, i, k) && p == WatchPair(i, byId[body[i].watch[k]])
  {
    var at := FirstIndex(body, body[i].watch[k]);
  }

  lemma {:induction false} DeclaredNext(body: seq<Op>, pairs: seq<WatchPair>, places: seq<Place>, i: nat, k: nat,
                                        p: WatchPair)
    requires Declared(body, pairs, places, Place(i, k)) && IsWatch(body, i, k, p)
    ensures Declared(body, pairs + [p], places + [Place(i, k)], Place(i, k + 1))
  {
    hide IsWatch;
    var more := places + [Place(i, k)];
    forall c: nat, d: nat, q | Sooner(Place(c, d), Place(i, k + 1)) && IsWatch(body, c, d, q)
      ensures Place(c, d) in more
    {
      if c == i && d == k {
        assert more[|places|] == Place(i, k);
      } else {
        assert Place(c, d) in places;
      }
    }
  }

  lemma {:induction false} DeclaredSkip(body: seq<Op>, pairs: seq<WatchPair>, places: seq<Place>, i: nat, k: nat)
    requires Declared(body, pairs, places, Place(i, k)) && forall p :: !IsWatch(body, i, k, p)
    ensures Declared(body, pairs, places, Place(i, k + 1))
  {
    hide IsWatch;
  }

  lemma {:induction false} DeclaredOp(body: seq<Op>, pairs: seq<WatchPair>, places: seq<Place>, i: nat)
    requires i < |body| && Declared(body, pairs, places, Place(i, |body[i].watch|))
    ensures Declared(body, pairs, places, Place(i + 1, 0))
  {
  }

  lemma {:induction false} PairsDeclared(byId: map<string, nat>, body: seq<Op>, i: nat, upTo: nat,
                                         pairs: seq<WatchPair>, places: seq<Place>) returns (more: seq<Place>)
    requires IndexesIds(byId, body) && i < |body| && upTo <= |body[i].watch|
    requires Declared(body, pairs, places, Place(i, 0))
    ensures Declared(body, pairs + PairsOf(byId, body, i, upTo), more, Place(i, upTo))
  {
    hide Declared, IndexesIds, IsWatch;
    more := places;
    if upTo == 0 {
      assert pairs + [] == pairs;
    } else {
      var before := pairs + PairsOf(byId, body, i, upTo - 1);
      more := PairsDeclared(byId, body, i, upTo - 1, pairs, places);
      PairedIff(byId, body, i, upTo - 1);
      if Paired(byId, body, i, upTo - 1) {
        var p := WatchPair(i, byId[body[i].watch[upTo - 1]]);
        DeclaredNext(body, before, more, i, upTo - 1, p);
        more := more + [Place(i, upTo - 1)];
        assert before + [p] == pairs + PairsOf(byId, body, i, upTo);
      } else {
        DeclaredSkip(body, before, more, i, upTo - 1);
        assert before == pairs + PairsOf(byId, body, i, upTo);
      }
    }
  }

  /** The listed watches in declaration order: by gated op and, within one op,
      by their place in its list, one entry for each occurrence. */
  lemma {:induction false} WatchListDeclared(byId: map<string, nat>, body: seq<Op>, upTo: nat)
    returns (places: seq<Place>)
    requires IndexesIds(byId, body) && upTo <= |body|
    ensures Declared(body, WatchList(byId, body, upTo), places, Place(upTo, 0))
  {
    places := [];
    if upTo > 0 {
      hide Declared, IndexesIds, PairsOf;
      places := WatchListDeclared(byId, body, upTo - 1);
      places := PairsDeclared(byId, body, upTo - 1, |body[upTo - 1].watch|, WatchList(byId, body, upTo - 1), places);
      DeclaredOp(body, WatchList(byId, body, upTo), places, upTo - 1);
    }
  }

  /** The dependencies and the watches ws can all be met by some levels. */
  ghost predicate FitTogether(g: DepGraph, body: seq<Op>, ws: set<WatchPair>) {
    Satisfiable(SystemOf(g, body, ws), true)
  }

  ghost predicate SoundSet(elev: seq<bool>, ws: set<WatchPair>) {
    forall p :: p in ws ==> SameClass(elev, p)
  }

  lemma {:induction false} SystemWf(g: DepGraph, body: seq<Op>, ws: set<WatchPair>)
    requires GraphOk(g, |body|) && SoundSet(Classes(body), ws)
    ensures Wf(SystemOf(g, body, ws))
  {
    forall u: nat, v: nat | (u, v) in DepEdges(g)
      ensures u < |body| && v < |body|
    {
      EdgeListed(g, |body|, u, v);
    }
  }

  /** Whether watches fit together is decided by the components, and does not
      depend on the class of level 0. */
  lemma {:induction false} FitTogetherIff(g: DepGraph, body: seq<Op>, ws: set<WatchPair>)
    requires GraphOk(g, |body|) && SoundSet(Classes(body), ws)
    ensures FitTogether(g, body, ws) <==> NoCross(Classes(body), AllEdges(SystemOf(g, body, ws)))
    ensures FitTogether(g, body, ws) <==> Satisfiable(SystemOf(g, body, ws), false)
  {
    SystemWf(g, body, ws);
    Solvability(SystemOf(g, body, ws), true);
    Solvability(SystemOf(g, body, ws), false);
  }

  lemma {:induction false} FitTogetherMono(g: DepGraph, body: seq<Op>, ws: set<WatchPair>, more: set<WatchPair>)
    requires ws <= more && FitTogether(g, body, more)
    ensures FitTogether(g, body, ws)
  {
    var level :| ValidLevels(SystemOf(g, body, more), true, level);
    assert ValidLevels(SystemOf(g, body, ws), true, level);
  }

  /** Next to watches that fit, one more fits unless it is excluded. */
  lemma {:induction false} FitsNext(g: DepGraph, body: seq<Op>, ws: set<WatchPair>, p: WatchPair)
    requires GraphOk(g, |body|) && SoundSet(Classes(body), ws) && SameClass(Classes(body), p)
    requires FitTogether(g, body, ws)
    ensures FitTogether(g, body, ws + {p}) <==> !Excludes(Classes(body), DepEdges(g), ws, p)
  {
    FitTogetherIff(g, body, ws);
    FitTogetherIff(g, body, ws + {p});
    var e := AllEdges(SystemOf(g, body, ws));
    AddedWatchEdges(ws, p);
    assert AllEdges(SystemOf(g, body, ws + {p})) == e + {(p.gated, p.watched), (p.watched, p.gated)};
    ClosesExactly(Classes(body), e, p);
  }

  lemma {:induction false} DepsFit(g: DepGraph, body: seq<Op>)
    requires GraphOk(g, |body|) && Acyclic(DepEdges(g))
    ensures FitTogether(g, body, {})
  {
    FitTogetherIff(g, body, {});
    assert AllEdges(SystemOf(g, body, {})) == DepEdges(g);
    AcyclicNoCross(Classes(body), DepEdges(g));
  }

  /** The watches kept one by one in declaration order, each only if it still
      fits together with those kept before it. */
  ghost function Greedy(g: DepGraph, body: seq<Op>, all: seq<WatchPair>): seq<WatchPair> {
    if all == [] then []
    else
      var before := Greedy(g, body, all[..|all| - 1]);
      var p := all[|all| - 1];
      if FitTogether(g, body, Members(before) + {p}) then before + [p] else before
  }

  lemma {:induction false} GreedyFits(g: DepGraph, body: seq<Op>, all: seq<WatchPair>)
    requires FitTogether(g, body, {})
    ensures FitTogether(g, body, Members(Greedy(g, body, all)))
    ensures Members(Greedy(g, body, all)) <= Members(all)
  {
    if all != [] {
      GreedyFits(g, body, all[..|all| - 1]);
      var before, p := Greedy(g, body, all[..|all| - 1]), all[|all| - 1];
      assert Members(before + [p]) == Members(before) + {p};
    } else {
      assert Members(all) == {};
    }
  }

  /** The watches at those of the places at that lie before m. */
  ghost function KeptBefore(all: seq<WatchPair>, at: seq<nat>, m: nat): set<WatchPair> {
    set j | 0 <= j < |at| && at[j] < m && at[j] < |all| :: all[at[j]]
  }

  /** kept are the entries of all at the places at, in order, and a place is
      one of them exactly if its watch fits next to the kept watches declared
      before it. */
  ghost predicate KeptByOne(g: DepGraph, body: seq<Op>, all: seq<WatchPair>, kept: seq<WatchPair>, at: seq<nat>) {
    && |at| == |kept| && (forall i, j :: 0 <= i < j < |at| ==> at[i] < at[j])
    && (forall j :: 0 <= j < |at| ==> at[j] < |all| && kept[j] == all[at[j]])
    && (forall m: nat :: m < |all| ==> (m in at <==> FitTogether(g, body, KeptBefore(all, at, m) + {all[m]})))
  }

  lemma {:induction false} KeptBeforeAll(all: seq<WatchPair>, kept: seq<WatchPair>, at: seq<nat>)
    requires |at| == |kept| && forall j :: 0 <= j < |at| ==> at[j] < |all| && kept[j] == all[at[j]]
    ensures KeptBefore(all, at, |all|) == Members(kept)
  {
    forall p | p in Members(kept)
      ensures p in KeptBefore(all, at, |all|)
    {
      var j :| 0 <= j < |kept| && kept[j] == p;
    }
  }

  lemma {:induction false} KeptBeforeSame(all: seq<WatchPair>, at: seq<nat>, p: WatchPair, m: nat)
    requires m <= |all|
    ensures KeptBefore(all + [p], at, m) == KeptBefore(all, at, m)
    ensures KeptBefore(all + [p], at + [|all|], m) == KeptBefore(all, at, m)
  {
    var more, places := all + [p], at + [|all|];
    forall q | q in KeptBefore(all, at, m)
      ensures q in KeptBefore(more, at, m) && q in KeptBefore(more, places, m)
    {
      var j :| 0 <= j < |at| && at[j] < m && at[j] < |all| && all[at[j]] == q;
      assert places[j] == at[j] && more[at[j]] == q;
    }
  }

  lemma {:induction false} KeptOneMore(g: DepGraph, body: seq<Op>, all: seq<WatchPair>, kept: seq<WatchPair>,
                                       at: seq<nat>, p: WatchPair)
    requires KeptByOne(g, body, all, kept, at)
    ensures FitTogether(g, body, Members(kept) + {p}) ==> KeptByOne(g, body, all + [p], kept + [p], at + [|all|])
    ensures !FitTogether(g, body, Members(kept) + {p}) ==> KeptByOne(g, body, all + [p], kept, at)
  {
    hide FitTogether, KeptBefore;
    KeptBeforeAll(all, kept, at);
    forall m: nat | m <= |all|
      ensures KeptBefore(all + [p], at, m) == KeptBefore(all, at, m)
      ensures KeptBefore(all + [p], at + [|all|], m) == KeptBefore(all, at, m)
    {
      KeptBeforeSame(all, at, p, m);
    }
  }

  /** The greedy choice, place by place: a watch is kept exactly if it fits next
      to the kept watches declared before it. */
  lemma {:induction false} GreedyKeeps(g: DepGraph, body: seq<Op>, all: seq<WatchPair>) returns (at: seq<nat>)
    ensures KeptByOne(g, body, all, Greedy(g, body, all), at)
  {
    hide *;
    at := [];
    if all == [] {
      NothingKept(g, body);
    } else {
      var rest, p := all[..|all| - 1], all[|all| - 1];
      at := GreedyKeeps(g, body, rest);
      GreedyLast(g, body, rest, p);
      KeptOneMore(g, body, rest, Greedy(g, body, rest), at, p);
      assert all == rest + [p];
      if FitTogether(g, body, Members(Greedy(g, body, rest)) + {p}) {
        at := at + [|rest|];
      }
    }
  }

  lemma {:induction false} NothingKept(g: DepGraph, body: seq<Op>)
    ensures KeptByOne(g, body, [], Greedy(g, body, []), [])
  {
  }

  lemma {:induction false} GreedyLast(g: DepGraph, body: seq<Op>, all: seq<WatchPair>, p: WatchPair)
    ensures Greedy(g, body, all + [p]) ==
            if FitTogether(g, body, Members(Greedy(g, body, all)) + {p}) then Greedy(g, body, all) + [p]
            else Greedy(g, body, all)
  {
    hide FitTogether;
    var more := all + [p];
    assert more[..|more| - 1] == all;
  }

  /** So the first declared watch that fits on its own is kept. */
  lemma {:induction false} FirstFittingKept(g: DepGraph, body: seq<Op>, all: seq<WatchPair>, m: nat)
    requires m < |all| && FitTogether(g, body, {all[m]})
    requires forall k :: 0 <= k < m ==> !FitTogether(g, body, {all[k]})
    ensures all[m] in Greedy(g, body, all)
  {
    hide FitTogether;
    if |all| == m + 1 {
      NoneKept(g, body, all[..m]);
      assert Members([]) + {all[m]} == {all[m]};
    } else {
      FirstFittingKept(g, body, all[..|all| - 1], m);
    }
  }

  lemma {:induction false} NoneKept(g: DepGraph, body: seq<Op>, all: seq<WatchPair>)
    requires forall k :: 0 <= k < |all| ==> !FitTogether(g, body, {all[k]})
    ensures Greedy(g, body, all) == []
  {
    hide FitTogether;
    if all != [] {
      var n := |all| - 1;
      NoneKept(g, body, all[..n]);
      assert Members([]) + {all[n]} == {all[n]};
    }
  }

  /** The kept set is maximal: a dropped watch does not fit next to the final
      kept set, not only next to the watches kept before it. */
  lemma {:induction false} GreedyMaximal(g: DepGraph, body: seq<Op>, all: seq<WatchPair>, p: WatchPair)
    requires p in all && p !in Greedy(g, body, all)
    ensures !FitTogether(g, body, Members(Greedy(g, body, all)) + {p})
  {
    var rest, last := all[..|all| - 1], all[|all| - 1];
    var before := Greedy(g, body, rest);
    if p in rest {
      GreedyMaximal(g, body, rest, p);
    }
    if FitTogether(g, body, Members(Greedy(g, body, all)) + {p}) {
      FitTogetherMono(g, body, Members(before) + {p}, Members(Greedy(g, body, all)) + {p});
    }
  }

  /** Watches that all fit together are all kept. */
  lemma {:induction false} GreedyKeepsAll(g: DepGraph, body: seq<Op>, all: seq<WatchPair>)
    requires FitTogether(g, body, Members(all))
    ensures Greedy(g, body, all) == all
  {
    if all != [] {
      var rest, last := all[..|all| - 1], all[|all| - 1];
      assert all == rest + [last];
      assert Members(all) == Members(rest) + {last};
      FitTogetherMono(g, body, Members(rest), Members(all));
      GreedyKeepsAll(g, body, rest);
    }
  }

  /** One dropped watch explained: nothing when it cannot fit even alone. */
  method Explain(keptGraph: LevelGraph, deps: LevelGraph, kept: seq<WatchPair>, index: map<(nat, nat), nat>,
                 p: WatchPair)
    returns (entry: Option<seq<WatchPair>>)
    requires keptGraph.Valid() && keptGraph.ScratchValid() && keptGraph.pairs == multiset(kept)
    requires deps.elev == keptGraph.elev && deps.waiters == keptGraph.waiters
    requires deps.seen == keptGraph.seen && deps.back == keptGraph.back && HoldsOnly(deps, {})
    requires SoundList(keptGraph.elev, kept) && FirstOnEdge(index, kept) && SameClass(keptGraph.elev, p)
    requires Excludes(keptGraph.elev, ListEdges(keptGraph.waiters), Members(kept), p)
    modifies keptGraph.seen, keptGraph.back
    ensures keptGraph.ScratchValid()
    ensures entry.None? <==> Excludes(keptGraph.elev, ListEdges(keptGraph.waiters), {}, p)
    ensures entry.Some? ==> Members(entry.value) <= Members(kept) &&
                            Minimal(keptGraph.elev, ListEdges(keptGraph.waiters), Members(entry.value), p)
  {
    hide Excludes, LevelGraph.Valid, ListEdges, WatchEdges, AllEdges, Minimal, DistinctKeys, Closes, SoundList,
         FirstOnEdge;
    ghost var dep := ListEdges(keptGraph.waiters);
    HoldsOnlyEdges(deps, {});
    GraphEdges(keptGraph, kept);
    ClosesIsExcludes(keptGraph.elev, dep, {}, p);
    ClosesIsExcludes(keptGraph.elev, dep, Members(kept), p);
    var alone := ClosesCrossCycle(deps, p);
    if alone {
      return None;
    }
    var with := Witness(keptGraph, p, kept, index);
    SubSound(keptGraph.elev, kept, with);
    with := ShrinkConflict(deps, with, p);
    return Some(with);
  }

  /** conflictsOf: for each dropped watch that fits on its own, a minimal set
      of kept watches it conflicts with. */
  method ConflictsOf(keptGraph: LevelGraph, kept: seq<WatchPair>, dropped: seq<WatchPair>)
    returns (conflicts: map<WatchPair, seq<WatchPair>>)
    requires keptGraph.Valid() && keptGraph.ScratchValid() && keptGraph.pairs == multiset(kept)
    requires SoundList(keptGraph.elev, kept) && AllSameClass(keptGraph.elev, dropped)
    requires forall k :: 0 <= k < |dropped| ==>
               Excludes(keptGraph.elev, ListEdges(keptGraph.waiters), Members(kept), dropped[k])
    modifies keptGraph.seen, keptGraph.back
    ensures Explained(keptGraph.elev, ListEdges(keptGraph.waiters), kept, dropped, conflicts)
  {
    hide Excludes, LevelGraph.Valid, ListEdges, WatchEdges, Minimal, SoundList, FirstOnEdge;
    ghost var dep := ListEdges(keptGraph.waiters);
    var deps := WithWatches(keptGraph, []);
    assert deps.pairs == multiset({});
    var index := KeptIndex(kept);
    conflicts := map[];
    for k := 0 to |dropped|
      invariant deps.seen == keptGraph.seen && deps.back == keptGraph.back && deps.elev == keptGraph.elev
      invariant deps.waiters == keptGraph.waiters
      invariant keptGraph.ScratchValid() && HoldsOnly(deps, {})
      invariant Explained(keptGraph.elev, dep, kept, dropped[..k], conflicts)
    {
      assert dropped[..k + 1] == dropped[..k] + [dropped[k]];
      var entry := Explain(keptGraph, deps, kept, index, dropped[k]);
      if entry.Some? {
        conflicts := conflicts[dropped[k] := entry.value];
      }
    }
    assert dropped[..|dropped|] == dropped;
  }

  lemma {:induction false} ClosesIsExcludes(elev: seq<bool>, dep: Edges, ws: set<WatchPair>, p: WatchPair)
    ensures Closes(elev, dep + WatchEdges(ws), p) <==> Excludes(elev, dep, ws, p)
  {
  }

  lemma {:induction false} GraphEdges(lg: LevelGraph, kept: seq<WatchPair>)
    requires lg.pairs == multiset(kept)
    ensures AllEdges(lg.Value()) == ListEdges(lg.waiters) + WatchEdges(Members(kept))
  {
    assert lg.Value().ws == Members(kept);
  }

  lemma {:induction false} SubSound(elev: seq<bool>, kept: seq<WatchPair>, with: seq<WatchPair>)
    requires SoundList(elev, kept) && forall q :: q in with ==> q in kept
    ensures SoundList(elev, with)
  {
    forall k | 0 <= k < |with|
      ensures SameClass(elev, with[k]) && with[k].gated != with[k].watched
    {
      assert with[k] in kept;
    }
  }

  /** Exactly the dropped watches that fit alone have an entry, and it is a
      minimal conflict among the kept watches. */
  ghost predicate Explained(elev: seq<bool>, dep: Edges, kept: seq<WatchPair>, dropped: seq<WatchPair>,
                            conflicts: map<WatchPair, seq<WatchPair>>)
  {
    && (forall p :: p in conflicts <==> p in dropped && !Excludes(elev, dep, {}, p))
    && (forall p :: p in conflicts ==>
          Members(conflicts[p]) <= Members(kept) && Minimal(elev, dep, Members(conflicts[p]), p))
  }

  /** The same in terms of what fits: an entry exactly for each dropped watch
      that fits alone; with the listed watches it does not fit, without any
      one of them it does. */
  ghost predicate MinimalConflicts(g: DepGraph, body: seq<Op>, kept: seq<WatchPair>, all: seq<WatchPair>,
                                   conflicts: map<WatchPair, seq<WatchPair>>)
  {
    && (forall p :: p in conflicts <==> p in all && p !in kept && FitTogether(g, body, {p}))
    && (forall p :: p in conflicts ==>
          && Members(conflicts[p]) <= Members(kept)
          && !FitTogether(g, body, Members(conflicts[p]) + {p})
          && forall q :: q in conflicts[p] ==> FitTogether(g, body, Members(conflicts[p]) - {q} + {p}))
  }

  lemma {:induction false} ExplainedFits(g: DepGraph, body: seq<Op>, kept: seq<WatchPair>, all: seq<WatchPair>,
                                         dropped: seq<WatchPair>,
                      conflicts: map<WatchPair, seq<WatchPair>>)
    requires GraphOk(g, |body|) && SoundList(Classes(body), all)
    requires FitTogether(g, body, Members(kept)) && Members(kept) <= Members(all)
    requires forall p :: p in dropped <==> p in all && p !in kept
    requires Explained(Classes(body), DepEdges(g), kept, dropped, conflicts)
    ensures MinimalConflicts(g, body, kept, all, conflicts)
  {
    FitTogetherMono(g, body, {}, Members(kept));
    forall p
      ensures p in conflicts <==> p in all && p !in kept && FitTogether(g, body, {p})
    {
      if p in all {
        FitsNext(g, body, {}, p);
        assert {} + {p} == {p};
      }
    }
    forall p | p in conflicts
      ensures !FitTogether(g, body, Members(conflicts[p]) + {p})
      ensures forall q :: q in conflicts[p] ==> FitTogether(g, body, Members(conflicts[p]) - {q} + {p})
    {
      ConflictFits(g, body, kept, all, p, Members(conflicts[p]));
    }
  }

  lemma {:induction false} ConflictFits(g: DepGraph, body: seq<Op>, kept: seq<WatchPair>, all: seq<WatchPair>,
                                        p: WatchPair, ws: set<WatchPair>)
    requires GraphOk(g, |body|) && SoundList(Classes(body), all) && p in all
    requires FitTogether(g, body, Members(kept)) && ws <= Members(kept) <= Members(all)
    requires Minimal(Classes(body), DepEdges(g), ws, p)
    ensures !FitTogether(g, body, ws + {p})
    ensures forall q :: q in ws ==> FitTogether(g, body, ws - {q} + {p})
  {
    assert SoundSet(Classes(body), Members(all));
    FitTogetherMono(g, body, ws, Members(kept));
    FitsNext(g, body, ws, p);
    forall q | q in ws
      ensures FitTogether(g, body, ws - {q} + {p})
    {
      FitTogetherMono(g, body, ws - {q}, Members(kept));
      FitsNext(g, body, ws - {q}, p);
    }
  }

  /** lg holds the dependencies of g and exactly the watches kept. */
  ghost predicate HoldsKept(lg: LevelGraph, g: DepGraph, body: seq<Op>, kept: seq<WatchPair>)
    reads lg, lg.seen, lg.back
  {
    && lg.Valid() && lg.ScratchValid() && lg.pairs == multiset(kept)
    && lg.elev == Classes(body) && lg.waiters == g.waiters
  }

  lemma {:induction false} KeptNeverExcluded(g: DepGraph, body: seq<Op>, ws: set<WatchPair>, p: WatchPair)
    requires GraphOk(g, |body|) && SoundSet(Classes(body), ws) && FitTogether(g, body, ws) && p in ws
    ensures !Excludes(Classes(body), DepEdges(g), ws, p)
  {
    FitsNext(g, body, ws, p);
    assert ws + {p} == ws;
  }

  /** What the greedy loop knows of the first k watches. */
  ghost predicate GreedyState(g: DepGraph, body: seq<Op>, all: seq<WatchPair>, k: nat, kept: seq<WatchPair>,
                              dropped: seq<WatchPair>)
    requires k <= |all|
  {
    && kept == Greedy(g, body, all[..k])
    && (forall i :: 0 <= i < k ==> all[i] in kept || all[i] in dropped)
    && (forall i :: 0 <= i < |dropped| ==>
          dropped[i] in all && Excludes(Classes(body), DepEdges(g), Members(kept), dropped[i]))
  }

  lemma {:induction false} GreedyStep(g: DepGraph, body: seq<Op>, all: seq<WatchPair>, k: nat, kept: seq<WatchPair>,
                                      dropped: seq<WatchPair>)
    requires GraphOk(g, |body|) && SoundList(Classes(body), all) && FitTogether(g, body, {})
    requires k < |all| && GreedyState(g, body, all, k, kept, dropped)
    ensures Excludes(Classes(body), DepEdges(g), Members(kept), all[k]) ==>
              GreedyState(g, body, all, k + 1, kept, dropped + [all[k]])
    ensures !Excludes(Classes(body), DepEdges(g), Members(kept), all[k]) ==>
              GreedyState(g, body, all, k + 1, kept + [all[k]], dropped)
  {
    var p := all[k];
    assert all[..k + 1][..k] == all[..k] && all[..k + 1][k] == p;
    GreedyFits(g, body, all[..k]);
    assert Members(all[..k]) <= Members(all);
    FitsNext(g, body, Members(kept), p);
    if !Excludes(Classes(body), DepEdges(g), Members(kept), p) {
      assert Members(kept + [p]) == Members(kept) + {p};
      forall i | 0 <= i < |dropped|
        ensures Excludes(Classes(body), DepEdges(g), Members(kept + [p]), dropped[i])
      {
        ExcludesMono(Classes(body), DepEdges(g), Members(kept), Members(kept + [p]), dropped[i]);
      }
    }
  }

  lemma {:induction false} GreedyDone(g: DepGraph, body: seq<Op>, all: seq<WatchPair>, kept: seq<WatchPair>,
                                      dropped: seq<WatchPair>)
    requires GraphOk(g, |body|) && SoundList(Classes(body), all) && FitTogether(g, body, {})
    requires GreedyState(g, body, all, |all|, kept, dropped)
    ensures kept == Greedy(g, body, all) && FitTogether(g, body, Members(kept)) && Members(kept) <= Members(all)
    ensures SoundList(Classes(body), kept) && AllSameClass(Classes(body), dropped)
    ensures forall p :: p in dropped <==> p in all && p !in kept
  {
    assert all[..|all|] == all;
    GreedyFits(g, body, all);
    assert forall q :: q in kept ==> q in Members(kept);
    SubSound(Classes(body), all, kept);
    forall p | p in dropped
      ensures p in all && p !in kept
    {
      if p in kept {
        KeptNeverExcluded(g, body, Members(kept), p);
      }
    }
    SubSame(Classes(body), all, dropped);
  }

  lemma {:induction false} SubSame(elev: seq<bool>, all: seq<WatchPair>, dropped: seq<WatchPair>)
    requires SoundList(elev, all) && forall i :: 0 <= i < |dropped| ==> dropped[i] in all
    ensures AllSameClass(elev, dropped)
  {
    forall k | 0 <= k < |dropped|
      ensures SameClass(elev, dropped[k])
    {
      assert dropped[k] in all;
    }
  }

  method GreedyLoop(g: DepGraph, body: seq<Op>, all: seq<WatchPair>)
    returns (lg: LevelGraph, kept: seq<WatchPair>, dropped: seq<WatchPair>)
    requires GraphOk(g, |body|) && SoundList(Classes(body), all) && FitTogether(g, body, {})
    ensures fresh(lg) && fresh(lg.seen) && fresh(lg.back) && HoldsKept(lg, g, body, kept)
    ensures GreedyState(g, body, all, |all|, kept, dropped)
  {
    hide FitTogether, Excludes, GreedyState, Greedy, SoundList, LevelGraph.Valid, GraphOk, Closes;
    lg := NewLevelGraph(g, body, []);
    kept, dropped := [], [];
    GreedyStart(g, body, all);
    for k := 0 to |all|
      invariant HoldsKept(lg, g, body, kept) && fresh(lg) && fresh(lg.seen) && fresh(lg.back)
      invariant GreedyState(g, body, all, k, kept, dropped)
    {
      ListedSame(Classes(body), all, k);
      GraphEdges(lg, kept);
      ClosesIsExcludes(Classes(body), DepEdges(g), Members(kept), all[k]);
      GreedyStep(g, body, all, k, kept, dropped);
      var closes := ClosesCrossCycle(lg, all[k]);
      if closes {
        dropped := dropped + [all[k]];
      } else {
        kept := kept + [all[k]];
        lg.AddWatch(all[k]);
      }
    }
  }

  lemma {:induction false} GreedyStart(g: DepGraph, body: seq<Op>, all: seq<WatchPair>)
    ensures GreedyState(g, body, all, 0, [], [])
  {
    assert all[..0] == [];
  }

  lemma {:induction false} ListedSame(elev: seq<bool>, all: seq<WatchPair>, k: nat)
    requires SoundList(elev, all) && k < |all|
    ensures SameClass(elev, all[k])
  {
  }

  lemma {:induction false} NothingDropped(g: DepGraph, body: seq<Op>, all: seq<WatchPair>)
    requires GraphOk(g, |body|) && SoundList(Classes(body), all)
    ensures MinimalConflicts(g, body, all, all, map[])
  {
  }

  lemma {:induction false} ExcludedAll(g: DepGraph, body: seq<Op>, all: seq<WatchPair>, kept: seq<WatchPair>,
                                       dropped: seq<WatchPair>)
    requires GreedyState(g, body, all, |all|, kept, dropped)
    ensures forall k :: 0 <= k < |dropped| ==> Excludes(Classes(body), DepEdges(g), Members(kept), dropped[k])
  {
  }

  /** keptWatches: the greedy set, and for every dropped watch that would fit
      on its own a minimal set of kept watches it conflicts with. */
  method ChooseWatches(g: DepGraph, body: seq<Op>)
    returns (kept: seq<WatchPair>, conflicts: map<WatchPair, seq<WatchPair>>)
    requires GraphOf(g, body) && Acyclic(DepEdges(g))
    ensures kept == Greedy(g, body, WatchList(g.byId, body, |body|))
    ensures FitTogether(g, body, Members(kept)) && SoundList(Classes(body), kept)
    ensures MinimalConflicts(g, body, kept, WatchList(g.byId, body, |body|), conflicts)
  {
    hide FitTogether, MinimalConflicts, SoundList, GreedyState, Greedy, Explained, NoCross, Excludes, LevelGraph.Valid,
         Acyclic;
    var all := SameClassWatches(g, body);
    WatchListSound(g.byId, body);
    SoundSame(Classes(body), all);
    DepsFit(g, body);
    var full := NewLevelGraph(g, body, all);
    var _, ok := WatchesSatisfiable(full);
    SetSame(Classes(body), all);
    FitTogetherIff(g, body, Members(all));
    if ok {
      GreedyKeepsAll(g, body, all);
      NothingDropped(g, body, all);
      return all, map[];
    }
    var lg, dropped;
    lg, kept, dropped := GreedyLoop(g, body, all);
    GreedyDone(g, body, all, kept, dropped);
    ExcludedAll(g, body, all, kept, dropped);
    conflicts := ConflictsOf(lg, kept, dropped);
    ExplainedFits(g, body, kept, all, dropped, conflicts);
  }

  lemma {:induction false} SetSame(elev: seq<bool>, all: seq<WatchPair>)
    requires SoundList(elev, all)
    ensures SoundSet(elev, Members(all))
  {
  }
}
