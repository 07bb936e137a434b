/** The schedule against the plan check: the order chosen for an Apply plan
    passes the change-gate check whenever any order can. */
module Scheduling {
  import opened Walks
  import opened Levels
  import opened Ops
  import opened DepGraphs
  import opened ApplyLevels
  import opened Conflicts
  import opened KeptWatches
  import opened Kahn
  import opened PathDeps
  import opened ChunkOrders
  import opened ApplyOrder

  /** Op i is change-gated and one of its watches names op j. */
  ghost predicate WatchesOp(body: seq<Op>, i: nat, j: nat) {
    && i < |body| && body[i].ifChanged
    && exists w :: 0 <= w < |body[i].watch| && body[i].watch[w] != "" && FirstIndex(body, body[i].watch[w]) == j
  }

  /** Every watch of the body, of one class or not. */
  ghost function AllWatches(body: seq<Op>): set<WatchPair> {
    set i: nat, j: nat | i < |body| && j < |body| && WatchesOp(body, i, j) :: WatchPair(i, j)
  }

  /** The recorded rules of a body with the watches of ws. */
  ghost function Recorded(body: seq<Op>, ws: set<WatchPair>): Constraints {
    Constraints(Classes(body), BodyDeps(body), ws)
  }

  /** An order that puts every dependency first and lets every watch share a
      chunk with its gated op. */
  ghost predicate GoodOrder(body: seq<Op>, order: seq<nat>) {
    ValidOrder(Recorded(body, AllWatches(body)), order)
  }

  /** The listed watches are those between two ops of one class. */
  lemma {:induction false} ListedWatches(g: DepGraph, body: seq<Op>, p: WatchPair)
    requires GraphOf(g, body)
    ensures p in WatchList(g.byId, body, |body|) <==>
            p in AllWatches(body) && p.gated != p.watched && SameClass(Classes(body), p)
  {
    WatchListMember(g.byId, body, |body|, p);
    hide GraphOk;
    if p.gated < |body| {
      forall k | 0 <= k < |body[p.gated].watch|
        ensures Paired(g.byId, body, p.gated, k) && g.byId[body[p.gated].watch[k]] == p.watched <==>
                body[p.gated].ifChanged && body[p.gated].watch[k] != "" &&
                  FirstIndex(body, body[p.gated].watch[k]) == p.watched &&
                p.watched != p.gated && body[p.watched].elevate == body[p.gated].elevate
      {
      }
    }
  }

  /** Fewer rules are met by the same order. */
  lemma {:induction false} FewerRules(elev: seq<bool>, dep: Edges, more: Edges, ws: set<WatchPair>,
                                      others: set<WatchPair>, order: seq<nat>)
    requires ValidOrder(Constraints(elev, more, others), order) && dep <= more
    requires forall p :: p in ws ==> p in others
    ensures ValidOrder(Constraints(elev, dep, ws), order)
  {
  }

  lemma {:induction false} RecordedWf(g: DepGraph, body: seq<Op>, ws: set<WatchPair>)
    requires GraphOf(g, body) && SoundSet(Classes(body), ws)
    ensures SystemOf(g, body, ws) == Recorded(body, ws) && Wf(Recorded(body, ws))
  {
    GraphDeps(g, body);
    SystemWf(g, body, ws);
  }

  /** If an order lets the watches of ws share chunks, they fit together. */
  lemma {:induction false} OrderFitsTogether(g: DepGraph, body: seq<Op>, ws: set<WatchPair>, order: seq<nat>)
    requires GraphOf(g, body) && SoundSet(Classes(body), ws) && |body| > 0
    requires ValidOrder(Recorded(body, ws), order)
    ensures FitTogether(g, body, ws)
  {
    RecordedWf(g, body, ws);
    hide ValidOrder, SoundSet, GraphOf, Wf;
    OrdersAndLevels(Recorded(body, ws), order);
  }

  /** Watches that share a chunk are of one class. */
  lemma {:induction false} SharedClass(elev: seq<bool>, order: seq<nat>, j: nat, k: nat)
    requires j < |order| && k < |order| && forall i :: 0 <= i < |order| ==> order[i] < |elev|
    requires ChunkOf(elev, order, j) == ChunkOf(elev, order, k)
    ensures elev[order[j]] == elev[order[k]]
  {
    ChunkParity(elev, order, j);
    ChunkParity(elev, order, k);
  }

  lemma {:induction false} GoodClasses(body: seq<Op>, order: seq<nat>, p: WatchPair)
    requires GoodOrder(body, order) && p in AllWatches(body)
    ensures SameClass(Classes(body), p)
  {
    PermutationHolds(|body|, order, p.gated);
    PermutationHolds(|body|, order, p.watched);
    var j: nat :| j < |order| && order[j] == p.gated;
    var k: nat :| k < |order| && order[k] == p.watched;
    assert WatchPair(order[j], order[k]) in AllWatches(body);
    hide AllWatches, InOrder;
    SharedClass(Classes(body), order, j, k);
  }

  /** Where every watch can share a chunk, all of them are kept. */
  lemma {:induction false} GoodKeepsAll(body: seq<Op>, s: Schedule, conflicts: map<WatchPair, seq<WatchPair>>,
                                        order: seq<nat>)
    requires Scheduled(body, s, conflicts) && |body| > 0 && GoodOrder(body, order)
    ensures s.kept == WatchList(s.recorded.byId, body, |body|)
  {
    var g, all := s.recorded, WatchList(s.recorded.byId, body, |body|);
    assert GraphOf(g, body) && s.kept == Greedy(g, body, all);
    hide Scheduled;
    WatchListSound(g.byId, body);
    SetSame(Classes(body), all);
    forall p | p in Members(all)
      ensures p in AllWatches(body)
    {
      ListedWatches(g, body, p);
    }
    hide AllWatches, SoundList, SoundSet, GraphOf, Greedy;
    FewerRules(Classes(body), BodyDeps(body), BodyDeps(body), Members(all), AllWatches(body), order);
    OrderFitsTogether(g, body, Members(all), order);
    GreedyKeepsAll(g, body, all);
  }

  /** Sound and complete: the chosen order lets every watch share a chunk with
      its gated op exactly when some dependency-respecting order does. */
  lemma {:induction false} ScheduleIsGoodIfAnyIs(body: seq<Op>, s: Schedule, conflicts: map<WatchPair, seq<WatchPair>>)
    requires Scheduled(body, s, conflicts) && |body| > 0
    ensures GoodOrder(body, s.order) <==> exists order :: GoodOrder(body, order)
  {
    if order :| GoodOrder(body, order) {
      GoodKeepsAll(body, s, conflicts, order);
      forall p | p in AllWatches(body) && p.gated != p.watched
        ensures p in Members(s.kept)
      {
        GoodClasses(body, order, p);
        ListedWatches(s.recorded, body, p);
      }
      ScheduleOrder(body, s, conflicts);
      hide Scheduled, GoodOrder;
      ShareAll(body, s.order, AllWatches(body), Members(s.kept));
      IsGood(body, s.order);
    }
  }

  lemma {:induction false} IsGood(body: seq<Op>, order: seq<nat>)
    requires ValidOrder(Recorded(body, AllWatches(body)), order)
    ensures GoodOrder(body, order)
  {
  }

  /** The schedule's order meets the recorded rules with the kept watches. */
  lemma {:induction false} ScheduleOrder(body: seq<Op>, s: Schedule, conflicts: map<WatchPair, seq<WatchPair>>)
    requires Scheduled(body, s, conflicts)
    ensures ValidOrder(Recorded(body, Members(s.kept)), s.order)
  {
    assert FewestChunks(Rules(body, s), s.order);
    hide Scheduled;
    FewerRules(Classes(body), BodyDeps(body), BodyDeps(body) + EdgeSet(s.inferred), Members(s.kept), Members(s.kept),
      s.order);
  }

  /** A watch of an op on itself always shares a chunk. */
  lemma {:induction false} ShareAll(body: seq<Op>, order: seq<nat>, ws: set<WatchPair>, kept: set<WatchPair>)
    requires ValidOrder(Recorded(body, kept), order)
    requires forall p :: p in ws && p.gated != p.watched ==> p in kept
    ensures ValidOrder(Recorded(body, ws), order)
  {
    hide InOrder;
    forall j, k | 0 <= j < |order| && 0 <= k < |order| && WatchPair(order[j], order[k]) in ws
      ensures ChunkOf(Classes(body), order, j) == ChunkOf(Classes(body), order, k)
    {
      if order[j] != order[k] {
        assert WatchPair(order[j], order[k]) in kept;
      } else {
        assert j == k;
      }
    }
  }

  /** Every dropped watch really crosses chunks, and would in any order that
      keeps the others. */
  lemma {:induction false} DroppedCrosses(body: seq<Op>, s: Schedule, conflicts: map<WatchPair, seq<WatchPair>>,
                                          p: WatchPair, order: seq<nat>)
    requires Scheduled(body, s, conflicts) && |body| > 0
    requires p in WatchList(s.recorded.byId, body, |body|) && p !in s.kept
    requires ValidOrder(Recorded(body, Members(s.kept)), order)
    ensures !ShareChunks(Classes(body), {p}, order)
  {
    var g, all := s.recorded, WatchList(s.recorded.byId, body, |body|);
    assert GraphOf(g, body) && s.kept == Greedy(g, body, all) && Acyclic(BodyDeps(body));
    hide Scheduled;
    GraphDeps(g, body);
    GraphOfLists(g, body);
    DepsFit(g, body);
    WatchListSound(g.byId, body);
    GreedyFits(g, body, all);
    GreedyMaximal(g, body, all, p);
    if ShareChunks(Classes(body), {p}, order) {
      WithOneMore(body, Members(s.kept), p, order);
      SoundMembers(Classes(body), all, Members(s.kept), p);
      hide GraphOf, SoundSet, ValidOrder, ShareChunks, Greedy, FitTogether;
      OrderFitsTogether(g, body, Members(s.kept) + {p}, order);
    }
  }

  lemma {:induction false} SoundMembers(elev: seq<bool>, all: seq<WatchPair>, kept: set<WatchPair>, p: WatchPair)
    requires SoundList(elev, all) && p in all && kept <= Members(all)
    ensures SoundSet(elev, kept + {p})
  {
  }

  lemma {:induction false} WithOneMore(body: seq<Op>, ws: set<WatchPair>, p: WatchPair, order: seq<nat>)
    requires ValidOrder(Recorded(body, ws), order) && ShareChunks(Classes(body), {p}, order)
    ensures ValidOrder(Recorded(body, ws + {p}), order)
  {
    hide InOrder;
    forall j, k | 0 <= j < |order| && 0 <= k < |order| && WatchPair(order[j], order[k]) in ws + {p}
      ensures ChunkOf(Classes(body), order, j) == ChunkOf(Classes(body), order, k)
    {
      if WatchPair(order[j], order[k]) !in ws {
        assert WatchPair(order[j], order[k]) in {p};
      }
    }
  }
}
