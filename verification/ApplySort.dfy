/** The apply order of one body: sortedApplyOrder, sortRunByDeps and
    kahnStable of plan/apply.go. */
module ApplySort {
  import opened Walks
  import opened Levels
  import opened LevelGraphs
  import opened Ops
  import opened DepGraphs
  import opened ReadyHeaps
  import opened Kahn
  import opened PathDeps
  import opened ChunkOrders

  /** No ranks: ties are broken by recorded position alone. */
  function Unranked(n: nat): (rank: seq<int>)
    ensures |rank| == n && forall i :: 0 <= i < n ==> rank[i] == 0
  {
    seq(n, _ => 0)
  }

  predicate Ascending(ready: seq<nat>) {
    forall i, j :: 0 <= i < j < |ready| ==> ready[i] < ready[j]
  }

  /** sort.SearchInts: the first index whose entry is at least w. */
  function SearchInts(ready: seq<nat>, w: nat): (at: nat)
    requires Ascending(ready)
    ensures at <= |ready|
    ensures (forall i :: 0 <= i < at ==> ready[i] < w) && forall i :: at <= i < |ready| ==> w <= ready[i]
  {
    if ready == [] || w <= ready[0] then 0 else 1 + SearchInts(ready[1..], w)
  }

  function Inserted(ready: seq<nat>, w: nat): (more: seq<nat>)
    requires Ascending(ready)
    ensures w !in ready ==> Ascending(more)
    ensures multiset(more) == multiset(ready) + multiset{w}
  {
    var at := SearchInts(ready, w);
    assert ready == ready[..at] + ready[at..];
    ready[..at] + [w] + ready[at..]
  }

  /** One op's waiters counted down, those that get ready inserted in order. */
  method ReleaseStable(ghost g: DepGraph, waiters: seq<seq<nat>>, was: seq<int>, heap: seq<nat>, ghost order: seq<nat>,
                       next: nat)
    returns (indeg: seq<int>, ready: seq<nat>)
    requires GraphOk(g, |g.deps|) && g.waiters == waiters && next < |g.deps| && next !in order && Ascending(heap)
    requires Counts(g, order, was) && HoldsReady(heap, |g.deps|, order + [next], was)
    requires forall i :: 0 <= i < |order| ==> order[i] < |was| && was[order[i]] == 0
    requires was[next] == 0
    ensures Counts(g, order + [next], indeg) && HoldsReady(ready, |g.deps|, order + [next], indeg) && Ascending(ready)
    ensures forall i :: 0 <= i < |order + [next]| ==> (order + [next])[i] < |indeg| && indeg[(order + [next])[i]] == 0
  {
    hide GraphOk, HoldsReady;
    ghost var n, done := |g.deps|, order + [next];
    indeg, ready := was, heap;
    GraphLists(g, n);
    for k := 0 to |waiters[next]|
      invariant CountsDown(g, order, next, k, indeg) && HoldsReady(ready, n, done, indeg) && Ascending(ready)
      invariant forall i :: 0 <= i < |done| ==> done[i] < |indeg| && indeg[done[i]] == 0
    {
      var w := waiters[next][k];
      CountDown(g, n, order, next, k, indeg);
      if indeg[w] == 1 {
        NotReadyYet(ready, n, done, indeg, w);
        PushedReady(ready, Inserted(ready, w), n, done, indeg, w);
        ready := Inserted(ready, w);
      } else {
        LoweredReady(ready, n, done, indeg, w);
      }
      indeg := indeg[w := indeg[w] - 1];
    }
    CountedDown(g, n, order, next, indeg);
  }

  lemma {:induction false} NotReadyYet(ready: seq<nat>, n: nat, done: seq<nat>, indeg: seq<int>, w: nat)
    requires |indeg| == n && HoldsReady(ready, n, done, indeg) && w < n && indeg[w] > 0
    ensures w !in ready
  {
  }

  lemma {:induction false} FirstIsLeast(ready: seq<nat>, n: nat)
    requires Ascending(ready) && ready != [] && forall k :: 0 <= k < |ready| ==> ready[k] < n
    ensures forall y :: y in ready ==> y < n && NotAfter(Unranked(n), ready[0], y)
    ensures Ascending(ready[1..]) && multiset(ready) == multiset(ready[1..]) + multiset{ready[0]}
  {
    assert ready == [ready[0]] + ready[1..];
  }

  lemma {:induction false} ReadyBelow(ready: seq<nat>, n: nat, done: seq<nat>, indeg: seq<int>)
    requires |indeg| == n && HoldsReady(ready, n, done, indeg)
    ensures forall k :: 0 <= k < |ready| ==> ready[k] < n
  {
    forall k | 0 <= k < |ready|
      ensures ready[k] < n
    {
      assert ready[k] in ready;
    }
  }

  method StartStable(ghost g: DepGraph, indeg: seq<int>) returns (ready: seq<nat>)
    requires |indeg| == |g.deps| && forall v: nat :: v < |indeg| ==> indeg[v] == |g.deps[v]|
    ensures Counts(g, [], indeg) && HoldsReady(ready, |g.deps|, [], indeg) && Ascending(ready)
  {
    ready := [];
    for i := 0 to |indeg|
      invariant forall v: nat :: v in ready <==> v < i && indeg[v] == 0
      invariant forall v: nat :: v in ready ==> multiset(ready)[v] == 1
      invariant Ascending(ready) && forall k :: 0 <= k < |ready| ==> ready[k] < i
    {
      if indeg[i] == 0 {
        var v: nat := i;
        assert v !in ready && multiset(ready + [v]) == multiset(ready) + multiset{v};
        ready := ready + [v];
      }
    }
    forall v: nat | v < |indeg|
      ensures indeg[v] == Remaining(g.deps[v], [])
    {
      RemainingNone(g.deps[v]);
    }
  }

  /** The emitting loop of kahnStable: always the earliest recorded ready op. */
  method StablePass(ghost g: DepGraph, waiters: seq<seq<nat>>, counts: seq<int>) returns (order: seq<nat>,
                    indeg: seq<int>)
    requires GraphOk(g, |g.deps|) && g.waiters == waiters && |counts| == |g.deps|
    requires forall v: nat :: v < |counts| ==> counts[v] == |g.deps[v]|
    ensures KahnOrder(g, Unranked(|g.deps|), order) && Counts(g, order, indeg)
  {
    hide GraphOk, HoldsReady, Counts, TakenFirst, NotAfter;
    var ready := StartStable(g, counts);
    indeg := counts;
    order := [];
    ghost var n := |g.deps|;
    ghost var rank := Unranked(n);
    while |ready| > 0
      invariant TakenAll(g, rank, order) && Counts(g, order, indeg) && |indeg| == n
      invariant HoldsReady(ready, n, order, indeg) && Ascending(ready)
      invariant forall i :: 0 <= i < |order| ==> order[i] < |indeg| && indeg[order[i]] == 0
      decreases n - |order|
    {
      ReadyBelow(ready, n, order, indeg);
      FirstIsLeast(ready, n);
      var next := ready[0];
      PoppedReady(ready, ready[1..], n, order, indeg, next);
      TakeNext(g, rank, order, indeg, ready, next);
      TakenDistinct(g, rank, order + [next]);
      indeg, ready := ReleaseStable(g, waiters, indeg, ready[1..], order, next);
      order := order + [next];
      CountsLength(g, order, indeg);
    }
    NoneReady(g, rank, order, indeg);
  }

  /** kahnStable: the order, or the first op a cycle keeps from being emitted. */
  method KahnStable(ghost g: DepGraph, waiters: seq<seq<nat>>, counts: seq<int>) returns (order: seq<nat>, stuck: int)
    requires GraphOk(g, |g.deps|) && g.waiters == waiters && |counts| == |g.deps|
    requires forall v: nat :: v < |counts| ==> counts[v] == |g.deps[v]|
    ensures stuck < 0 <==> Acyclic(DepEdges(g))
    ensures stuck < 0 ==> KahnOrder(g, Unranked(|g.deps|), order) && Permutation(|g.deps|, order)
    ensures stuck >= 0 ==> stuck < |g.deps| && Blocked(DepEdges(g), stuck)
  {
    var indeg;
    order, indeg := StablePass(g, waiters, counts);
    ghost var n := |g.deps|;
    KahnComplete(g, Unranked(n), order);
    CountsLength(g, order, indeg);
    for v := 0 to |indeg|
      invariant forall u: nat :: u < v ==> u in order
    {
      LeftOver(g, Unranked(n), order, indeg, v);
      if indeg[v] > 0 {
        KahnEmits(g, Unranked(n), order, v);
        NotAllEmitted(n, order, v);
        return order, v;
      }
    }
    AllOf(n, order);
    stuck := -1;
  }

  lemma {:induction false} NotAllEmitted(n: nat, order: seq<nat>, v: nat)
    requires v < n && v !in order
    ensures !Permutation(n, order)
  {
    if Permutation(n, order) {
      PermutationHolds(n, order, v);
    }
  }

  /** An already ordered run is left as it is. */
  lemma {:induction false} StableUnchanged(g: DepGraph, order: seq<nat>, k: nat)
    requires GraphOk(g, |g.deps|) && KahnOrder(g, Unranked(|g.deps|), order) && k <= |g.deps|
    requires forall u: nat, v: nat :: (u, v) in DepEdges(g) ==> u < v
    ensures k <= |order| && forall i :: 0 <= i < k ==> order[i] == i
  {
    if k > 0 {
      var v: nat := k - 1;
      StableUnchanged(g, order, v);
      assert forall i :: 0 <= i < v ==> order[..v][i] == i;
      assert Ready(g, order[..v], v) by {
        forall i | 0 <= i < |g.deps[v]|
          ensures g.deps[v][i] in order[..v]
        {
          assert g.deps[v][i] in g.deps[v];
          EdgeListed(g, |g.deps|, g.deps[v][i], v);
          assert order[..v][g.deps[v][i]] == g.deps[v][i];
        }
      }
      forall i: nat | i < v
        ensures i in order[..v]
      {
        assert order[..v][i] == i;
      }
      assert order[..|order|] == order;
      if |order| > v {
        assert TakenFirst(g, Unranked(|g.deps|), order, v);
        assert NotAfter(Unranked(|g.deps|), order[v], v);
      }
    }
  }

  /** Op q of the run lists the ID op p of the run carries. */
  predicate WaitsFor(run: seq<Op>, q: nat, p: nat) {
    q < |run| && p < |run| && run[p].id != "" && run[p].id in run[q].deps
  }

  /** The recorded dependencies inside one run, dep -> dependent. */
  ghost function RunEdges(run: seq<Op>): Edges {
    set p: nat, q: nat | p < |run| && q < |run| && WaitsFor(run, q, p) :: (p, q)
  }

  /** Every position of the run that carries id. */
  function Carriers(run: seq<Op>, id: string): (at: seq<nat>)
    ensures forall p: nat :: p in at <==> p < |run| && run[p].id == id && id != ""
  {
    if run == [] then []
    else
      var last := |run| - 1;
      var rest := Carriers(run[..last], id);
      assert forall p :: 0 <= p < last ==> run[..last][p] == run[p];
      if run[last].id == id && id != "" then rest + [last] else rest
  }

  /** inRun lists the carriers of every ID of the run. */
  ghost predicate IndexesRun(inRun: map<string, seq<nat>>, run: seq<Op>) {
    forall id :: if Carriers(run, id) != [] then id in inRun && inRun[id] == Carriers(run, id) else id !in inRun
  }

  method IndexRun(run: seq<Op>) returns (inRun: map<string, seq<nat>>)
    ensures IndexesRun(inRun, run)
  {
    inRun := map[];
    for pos := 0 to |run|
      invariant IndexesRun(inRun, run[..pos])
    {
      assert run[..pos + 1][..pos] == run[..pos];
      var id := run[pos].id;
      if id != "" {
        inRun := inRun[id := (if id in inRun then inRun[id] else []) + [pos]];
      }
    }
    assert run[..|run|] == run;
  }

  /** The positions op pos waits for through its first n deps. */
  function WaitList(run: seq<Op>, pos: nat, n: nat): seq<nat>
    requires pos < |run| && n <= |run[pos].deps|
  {
    if n == 0 then [] else WaitList(run, pos, n - 1) + Carriers(run, run[pos].deps[n - 1])
  }

  /** One of the first n deps is id. */
  ghost predicate Names(deps: seq<string>, n: nat, id: string)
    requires n <= |deps|
  {
    exists d :: 0 <= d < n && deps[d] == id
  }

  lemma {:induction false} NamesNext(deps: seq<string>, n: nat, id: string)
    requires n < |deps|
    ensures Names(deps, n + 1, id) <==> Names(deps, n, id) || deps[n] == id
  {
    if Names(deps, n + 1, id) && deps[n] != id {
      var d :| 0 <= d < n + 1 && deps[d] == id;
      assert d < n;
    }
  }

  lemma {:induction false} CarriesIff(run: seq<Op>, id: string, p: nat)
    ensures p in Carriers(run, id) <==> p < |run| && run[p].id == id && id != ""
  {
  }

  lemma {:induction false} WaitListMember(run: seq<Op>, pos: nat, n: nat, p: nat)
    requires pos < |run| && n <= |run[pos].deps|
    ensures p in WaitList(run, pos, n) <==> p < |run| && run[p].id != "" && Names(run[pos].deps, n, run[p].id)
  {
    hide Names, Carriers;
    if n > 0 {
      var deps := run[pos].deps;
      WaitListMember(run, pos, n - 1, p);
      CarriesIff(run, deps[n - 1], p);
      assert WaitList(run, pos, n) == WaitList(run, pos, n - 1) + Carriers(run, deps[n - 1]);
      hide WaitList;
      if p < |run| {
        NamesNext(deps, n - 1, run[p].id);
      }
    } else {
      NamesNone(run, pos, p);
    }
  }

  lemma {:induction false} NamesNone(run: seq<Op>, pos: nat, p: nat)
    requires pos < |run|
    ensures p < |run| ==> !Names(run[pos].deps, 0, run[p].id)
  {
  }

  /** A dep that is first carried behind the run cannot be ordered first. */
  predicate CarriedLater(body: seq<Op>, end: nat, dep: string) {
    dep != "" && FirstIndex(body, dep) >= end
  }

  /** The graph under construction: deps mirror waiters, and indeg counts them. */
  ghost predicate Building(deps: seq<seq<nat>>, waiters: seq<seq<nat>>, indeg: seq<int>, n: nat) {
    |deps| == |waiters| == |indeg| == n && ListsOk(deps, waiters, n) && forall v :: 0 <= v < n ==> indeg[v] == |deps[v]|
  }

  /** What is built once the ops before pos and k deps of op pos are done. */
  ghost predicate BuiltTo(run: seq<Op>, deps: seq<seq<nat>>, pos: nat, k: nat)
    requires pos < |run| && k <= |run[pos].deps|
  {
    |deps| == |run| &&
    forall q :: 0 <= q < |run| ==>
      deps[q] == if q < pos then WaitList(run, q, |run[q].deps|) else if q == pos then WaitList(run, pos, k) else []
  }

  ghost predicate BuiltAll(run: seq<Op>, deps: seq<seq<nat>>, n: nat) {
    |deps| == |run| &&
    forall q :: 0 <= q < |run| ==> deps[q] == if q < n then WaitList(run, q, |run[q].deps|) else []
  }

  lemma {:induction false} BuildStart(n: nat)
    ensures Building(seq(n, _ => []), seq(n, _ => []), seq(n, _ => 0), n)
  {
  }

  lemma {:induction false} BuildNext(deps: seq<seq<nat>>, waiters: seq<seq<nat>>, indeg: seq<int>, n: nat, p: nat,
                                     pos: nat)
    requires Building(deps, waiters, indeg, n) && p < n && pos < n
    ensures Building(Append(deps, pos, p), Append(waiters, p, pos), indeg[pos := indeg[pos] + 1], n)
  {
    ListsAppend(deps, waiters, n, p, pos);
  }

  /** One edge per carrier of a dep of op pos. */
  method AddCarriers(run: seq<Op>, pos: nat, at: seq<nat>, ghost oldDeps: seq<seq<nat>>, oldWaiters: seq<seq<nat>>,
                     oldIndeg: seq<int>)
    returns (ghost deps: seq<seq<nat>>, waiters: seq<seq<nat>>, indeg: seq<int>)
    requires pos < |run| && (forall p :: p in at ==> p < |run|) && Building(oldDeps, oldWaiters, oldIndeg, |run|)
    ensures Building(deps, waiters, indeg, |run|) && deps == oldDeps[pos := oldDeps[pos] + at]
  {
    hide ListsOk;
    deps, waiters, indeg := oldDeps, oldWaiters, oldIndeg;
    assert oldDeps[pos] + [] == oldDeps[pos];
    for j := 0 to |at|
      invariant Building(deps, waiters, indeg, |run|) && deps == oldDeps[pos := oldDeps[pos] + at[..j]]
    {
      var p := at[j];
      assert p in at && at[..j + 1] == at[..j] + [p];
      assert oldDeps[pos] + at[..j] + [p] == oldDeps[pos] + at[..j + 1];
      BuildNext(deps, waiters, indeg, |run|, p, pos);
      deps := Append(deps, pos, p);
      waiters := Append(waiters, p, pos);
      indeg := indeg[pos := indeg[pos] + 1];
    }
    assert at[..|at|] == at;
  }

  datatype RunSort = RunSorted(order: seq<nat>) | RunLater(op: nat, dep: nat) | RunCircular(op: nat)

  /** No dep of the op is first carried at end or behind it. */
  ghost predicate NoneLater(body: seq<Op>, end: nat, op: Op) {
    forall d :: 0 <= d < |op.deps| ==> !CarriedLater(body, end, op.deps[d])
  }

  /** Whether some dep of the run is first carried behind it. */
  ghost predicate RunWaitsLater(body: seq<Op>, start: nat, end: nat)
    requires start <= end <= |body|
  {
    exists i :: start <= i < end && !NoneLater(body, end, body[i])
  }

  /** placed holds the IDs of the resource ops before start. */
  ghost predicate Placed(body: seq<Op>, start: nat, placed: set<string>) {
    forall id ::
      id in placed <==>
        id != "" && exists i :: 0 <= i < start && i < |body| && !IsControlKind(body[i].kind) && body[i].id == id
  }

  lemma {:induction false} LaterOrNot(body: seq<Op>, start: nat, end: nat, placed: set<string>, byId: map<string, nat>,
                                      dep: string)
    requires start <= end <= |body| && Placed(body, start, placed) && IndexesIds(byId, body)
    ensures Carriers(body[start..end], dep) != [] ==> !CarriedLater(body, end, dep)
    ensures dep in placed ==> !CarriedLater(body, end, dep)
    ensures CarriedLater(body, end, dep) <==> dep in byId && byId[dep] >= end
  {
    var run := body[start..end];
    if Carriers(run, dep) != [] {
      var p := Carriers(run, dep)[0];
      assert p in Carriers(run, dep) && body[start + p].id == dep;
    }
  }

  /** One op's deps in the edge-building loop; later is a dep it cannot wait
      for. */
  method BuildOp(body: seq<Op>, start: nat, end: nat, placed: set<string>, byId: map<string, nat>,
                 inRun: map<string, seq<nat>>,
                 pos: nat, ghost oldDeps: seq<seq<nat>>, oldWaiters: seq<seq<nat>>, oldIndeg: seq<int>)
    returns (later: Option<nat>, ghost deps: seq<seq<nat>>, waiters: seq<seq<nat>>, indeg: seq<int>)
    requires start <= end <= |body| && pos < end - start && Placed(body, start, placed) && IndexesIds(byId, body)
    requires IndexesRun(inRun, body[start..end])
    requires Building(oldDeps, oldWaiters, oldIndeg, end - start) && BuiltAll(body[start..end], oldDeps, pos)
    ensures later.None? ==> NoneLater(body, end, body[start + pos])
    ensures later.Some? ==>
              later.value < |body[start + pos].deps| && CarriedLater(body, end, body[start + pos].deps[later.value])
    ensures later.None? ==> Building(deps, waiters, indeg, end - start) && BuiltAll(body[start..end], deps, pos + 1)
  {
    hide Building, IndexesIds, Placed, CarriedLater, BuiltAll, BuiltTo;
    var run := body[start..end];
    var op := run[pos];
    deps, waiters, indeg := oldDeps, oldWaiters, oldIndeg;
    BuiltStart(run, deps, pos);
    for k := 0 to |op.deps|
      invariant Building(deps, waiters, indeg, |run|) && BuiltTo(run, deps, pos, k)
      invariant forall d :: 0 <= d < k ==> !CarriedLater(body, end, op.deps[d])
    {
      LaterOrNot(body, start, end, placed, byId, op.deps[k]);
      BuiltStep(run, deps, pos, k);
      if op.deps[k] !in inRun {
        if op.deps[k] in placed {
          continue;
        }
        if op.deps[k] in byId && byId[op.deps[k]] >= end {
          return Some(k), deps, waiters, indeg;
        }
        continue;
      }
      deps, waiters, indeg := AddCarriers(run, pos, inRun[op.deps[k]], deps, waiters, indeg);
    }
    BuiltDone(run, deps, pos);
    later := None;
  }

  lemma {:induction false} BuiltStart(run: seq<Op>, deps: seq<seq<nat>>, pos: nat)
    requires pos < |run| && BuiltAll(run, deps, pos)
    ensures BuiltTo(run, deps, pos, 0)
  {
  }

  lemma {:induction false} BuiltStep(run: seq<Op>, deps: seq<seq<nat>>, pos: nat, k: nat)
    requires pos < |run| && k < |run[pos].deps| && BuiltTo(run, deps, pos, k)
    ensures |deps| == |run| && BuiltTo(run, deps[pos := deps[pos] + Carriers(run, run[pos].deps[k])], pos, k + 1)
    ensures Carriers(run, run[pos].deps[k]) == [] ==> BuiltTo(run, deps, pos, k + 1)
  {
  }

  lemma {:induction false} BuiltDone(run: seq<Op>, deps: seq<seq<nat>>, pos: nat)
    requires pos < |run| && BuiltTo(run, deps, pos, |run[pos].deps|)
    ensures BuiltAll(run, deps, pos + 1)
  {
  }

  /** The edge-building loop of sortRunByDeps. */
  method BuildRun(body: seq<Op>, start: nat, end: nat, placed: set<string>, byId: map<string, nat>)
    returns (later: Option<(nat, nat)>, ghost deps: seq<seq<nat>>, waiters: seq<seq<nat>>, indeg: seq<int>)
    requires start <= end <= |body| && Placed(body, start, placed) && IndexesIds(byId, body)
    ensures later.None? <==> !RunWaitsLater(body, start, end)
    ensures later.Some? ==> start <= later.value.0 < end && later.value.1 < |body[later.value.0].deps| &&
                            CarriedLater(body, end, body[later.value.0].deps[later.value.1])
    ensures later.None? ==> Building(deps, waiters, indeg, end - start) && BuiltAll(body[start..end], deps, end - start)
  {
    hide Building, IndexesIds, Placed, CarriedLater, BuiltAll, IndexesRun;
    var run, n := body[start..end], end - start;
    var inRun := IndexRun(run);
    BuildStart(n);
    deps, waiters, indeg := seq(n, _ => []), seq(n, _ => []), seq(n, _ => 0);
    NothingBuilt(run, deps);
    for pos := 0 to n
      invariant Building(deps, waiters, indeg, n) && BuiltAll(run, deps, pos)
      invariant forall i :: start <= i < start + pos ==> NoneLater(body, end, body[i])
    {
      var at;
      at, deps, waiters, indeg := BuildOp(body, start, end, placed, byId, inRun, pos, deps, waiters, indeg);
      if at.Some? {
        return Some((start + pos, at.value)), deps, waiters, indeg;
      }
    }
    later := None;
  }

  lemma {:induction false} NothingBuilt(run: seq<Op>, deps: seq<seq<nat>>)
    requires |deps| == |run| && forall q :: 0 <= q < |run| ==> deps[q] == []
    ensures BuiltAll(run, deps, 0)
  {
  }

  lemma {:induction false} BuiltEdges(run: seq<Op>, g: DepGraph)
    requires GraphOk(g, |run|) && BuiltAll(run, g.deps, |run|)
    ensures DepEdges(g) == RunEdges(run)
  {
    forall p: nat, q: nat
      ensures (p, q) in DepEdges(g) <==> (p, q) in RunEdges(run)
    {
      EdgeListed(g, |run|, p, q);
      if p < |run| && q < |run| {
        WaitListMember(run, q, |run[q].deps|, p);
      }
    }
  }

  lemma {:induction false} BuildingLists(deps: seq<seq<nat>>, waiters: seq<seq<nat>>, indeg: seq<int>, n: nat)
    requires Building(deps, waiters, indeg, n)
    ensures |deps| == |waiters| == |indeg| == n && Bounded(waiters, n) && ListsOk(deps, waiters, n)
    ensures forall v :: 0 <= v < n ==> indeg[v] == |deps[v]|
  {
  }

  /** addParentDirDeps: the inferred edges appended to the run's graph. */
  method AddParentDirDeps(run: seq<Op>, ghost oldDeps: seq<seq<nat>>, oldWaiters: seq<seq<nat>>, oldIndeg: seq<int>)
    returns (ghost deps: seq<seq<nat>>, waiters: seq<seq<nat>>, indeg: seq<int>, edges: seq<ParentDirEdge>)
    requires Building(oldDeps, oldWaiters, oldIndeg, |run|)
    ensures Building(deps, waiters, indeg, |run|) && ListEdges(waiters) == ListEdges(oldWaiters) + EdgeSet(edges)
    ensures Inferred(run, ListEdges(oldWaiters), edges, |run|)
  {
    hide EdgeSet, Inferred, ListEdges;
    BuildingLists(oldDeps, oldWaiters, oldIndeg, |run|);
    edges := InferParentDirDeps(run, oldWaiters);
    hide Building, Bounded, ListsOk;
    EdgesNamed(run, ListEdges(oldWaiters), edges);
    deps, waiters, indeg := oldDeps, oldWaiters, oldIndeg;
    NoEdgesYet(waiters);
    for k := 0 to |edges|
      invariant Building(deps, waiters, indeg, |run|)
      invariant ListEdges(waiters) == ListEdges(oldWaiters) + EdgeSet(edges[..k])
    {
      BuildingLists(deps, waiters, indeg, |run|);
      assert edges[..k + 1] == edges[..k] + [edges[k]];
      EdgeSetNext(edges[..k], edges[k]);
      BuildNext(deps, waiters, indeg, |run|, edges[k].dep, edges[k].dependent);
      AppendedEdge(waiters, edges[k].dep, edges[k].dependent);
      indeg := indeg[edges[k].dependent := indeg[edges[k].dependent] + 1];
      deps := Append(deps, edges[k].dependent, edges[k].dep);
      waiters := Append(waiters, edges[k].dep, edges[k].dependent);
    }
    assert edges[..|edges|] == edges;
  }

  ghost predicate Forward(e: Edges) {
    forall u: nat, v: nat :: (u, v) in e ==> u < v
  }

  /** What sorting one run promises: every recorded and every inferred
      dependency comes first, and a run already in order stays as it is. */
  ghost predicate StableOrder(run: seq<Op>, edges: seq<ParentDirEdge>, order: seq<nat>) {
    var all := RunEdges(run) + EdgeSet(edges);
    && Inferred(run, RunEdges(run), edges, |run|)
    && Permutation(|run|, order) && InOrder(all, order)
    && (Forward(all) ==> forall k :: 0 <= k < |order| ==> order[k] == k)
  }

  lemma {:induction false} StableMeets(run: seq<Op>, g: DepGraph, edges: seq<ParentDirEdge>, order: seq<nat>)
    requires GraphOk(g, |run|) && |g.deps| == |run| && DepEdges(g) == RunEdges(run) + EdgeSet(edges)
    requires Inferred(run, RunEdges(run), edges, |run|)
    requires KahnOrder(g, Unranked(|run|), order) && Permutation(|run|, order)
    ensures StableOrder(run, edges, order)
  {
    KahnInOrder(g, Unranked(|run|), order);
    hide KahnOrder, Inferred, GraphOk, InOrder;
    if Forward(DepEdges(g)) {
      StableUnchanged(g, order, |run|);
    }
  }

  /** sortRunByDeps.  A run sorts exactly when no dep is first carried behind
      it and its recorded deps are acyclic; inference never changes that. */
  method SortRunByDeps(body: seq<Op>, start: nat, end: nat, placed: set<string>, byId: map<string, nat>)
    returns (r: RunSort, ghost edges: seq<ParentDirEdge>)
    requires start <= end <= |body| && Placed(body, start, placed) && IndexesIds(byId, body)
    ensures r.RunLater? ==> RunWaitsLater(body, start, end)
    ensures r.RunLater? ==>
              start <= r.op < end && r.dep < |body[r.op].deps| && CarriedLater(body, end, body[r.op].deps[r.dep])
    ensures r.RunCircular? ==> !Acyclic(RunEdges(body[start..end]))
    ensures r.RunCircular? ==> start <= r.op < end && Blocked(RunEdges(body[start..end]) + EdgeSet(edges), r.op - start)
    ensures r.RunSorted? ==> !RunWaitsLater(body, start, end) && Acyclic(RunEdges(body[start..end]))
    ensures r.RunSorted? ==> StableOrder(body[start..end], edges, r.order)
  {
    hide Acyclic, Inferred, Building, BuiltAll, KahnOrder, Permutation, EdgeSet, RunEdges, StableOrder, Blocked,
         RunWaitsLater;
    var run, n := body[start..end], end - start;
    edges := [];
    ghost var deps;
    var later, waiters, indeg;
    later, deps, waiters, indeg := BuildRun(body, start, end, placed, byId);
    if later.Some? {
      LaterWitness(body, start, end, later.value.0, later.value.1);
      return RunLater(later.value.0, later.value.1), edges;
    }
    BuildingGraph(deps, waiters, indeg, n);
    BuiltEdges(run, DepGraph(map[], deps, waiters));
    var found;
    deps, waiters, indeg, found := AddParentDirDeps(run, deps, waiters, indeg);
    edges := found;
    BuildingGraph(deps, waiters, indeg, n);
    SameAcyclic(run, edges);
    ghost var g := DepGraph(map[], deps, waiters);
    var order, stuck := KahnStable(g, waiters, indeg);
    if stuck >= 0 {
      return RunCircular(start + stuck), edges;
    }
    StableMeets(run, g, edges, order);
    r := RunSorted(order);
  }

  lemma {:induction false} LaterWitness(body: seq<Op>, start: nat, end: nat, i: nat, d: nat)
    requires start <= i < end <= |body| && d < |body[i].deps| && CarriedLater(body, end, body[i].deps[d])
    ensures RunWaitsLater(body, start, end)
  {
    assert !NoneLater(body, end, body[i]);
  }

  lemma {:induction false} BuildingGraph(deps: seq<seq<nat>>, waiters: seq<seq<nat>>, indeg: seq<int>, n: nat)
    requires Building(deps, waiters, indeg, n)
    ensures |deps| == |indeg| == n && GraphOk(DepGraph(map[], deps, waiters), n)
    ensures DepEdges(DepGraph(map[], deps, waiters)) == ListEdges(waiters)
    ensures forall v: nat :: v < n ==> indeg[v] == |deps[v]|
  {
  }

  lemma {:induction false} SameAcyclic(run: seq<Op>, edges: seq<ParentDirEdge>)
    requires Inferred(run, RunEdges(run), edges, |run|)
    ensures Acyclic(RunEdges(run) + EdgeSet(edges)) <==> Acyclic(RunEdges(run))
  {
    AcceptedAcyclic(RunEdges(run), edges);
  }

  /** Entries a to b are a maximal run of resource ops. */
  ghost predicate IsRun(body: seq<Op>, a: nat, b: nat) {
    && a < b <= |body| && (forall i :: a <= i < b ==> !IsControlKind(body[i].kind))
    && (a > 0 ==> IsControlKind(body[a - 1].kind)) && (b < |body| ==> IsControlKind(body[b].kind))
  }

  /** Every run sorts. */
  ghost predicate SortAccepts(body: seq<Op>) {
    forall a: nat, b: nat :: IsRun(body, a, b) ==> !RunWaitsLater(body, a, b) && Acyclic(RunEdges(body[a..b]))
  }

  /** Entries a to b of out are the run at a to b in a stable order. */
  ghost predicate RunPlaced(body: seq<Op>, a: nat, b: nat, out: seq<nat>) {
    && a <= b <= |body| && b <= |out|
    && exists edges, order :: StableOrder(body[a..b], edges, order) && |order| == b - a &&
         forall k :: 0 <= k < b - a ==> out[a + k] == a + order[k]
  }

  /** The apply order of the first |out| ops: control ops stay where they are,
      every run is sorted in place. */
  ghost predicate SortedTo(body: seq<Op>, out: seq<nat>) {
    && |out| <= |body|
    && (forall i :: 0 <= i < |out| && IsControlKind(body[i].kind) ==> out[i] == i)
    && (forall a: nat, b: nat :: IsRun(body, a, b) && b <= |out| ==> RunPlaced(body, a, b, out))
  }

  ghost predicate RunsSort(body: seq<Op>, n: nat) {
    forall a: nat, b: nat :: IsRun(body, a, b) && b <= n ==> !RunWaitsLater(body, a, b) && Acyclic(RunEdges(body[a..b]))
  }

  datatype BodySort = BodySorted(order: seq<nat>) | BodyLater(op: nat, dep: nat) | BodyCircular(op: nat)

  function RunIds(body: seq<Op>, a: nat, b: nat): set<string>
    requires a <= b <= |body|
  {
    set i | a <= i < b && body[i].id != "" :: body[i].id
  }

  lemma {:induction false} PlacedRun(body: seq<Op>, a: nat, b: nat, placed: set<string>)
    requires a <= b <= |body| && Placed(body, a, placed) && forall i :: a <= i < b ==> !IsControlKind(body[i].kind)
    ensures Placed(body, b, placed + RunIds(body, a, b))
  {
  }

  lemma {:induction false} PlacedControl(body: seq<Op>, a: nat, placed: set<string>)
    requires a < |body| && Placed(body, a, placed) && IsControlKind(body[a].kind)
    ensures Placed(body, a + 1, placed)
  {
  }

  /** The state between two ops: out holds everything up to the current run,
      which begins behind the last control op. */
  ghost predicate Sorting(body: seq<Op>, out: seq<nat>, placed: set<string>, i: nat) {
    && |out| <= i <= |body| && SortedTo(body, out) && RunsSort(body, |out|) && Placed(body, |out|, placed)
    && (|out| > 0 ==> IsControlKind(body[|out| - 1].kind))
    && forall k :: |out| <= k < i ==> !IsControlKind(body[k].kind)
  }

  lemma {:induction false} SortingRun(body: seq<Op>, out: seq<nat>, placed: set<string>, i: nat)
    requires Sorting(body, out, placed, i) && |out| < i && (i == |body| || IsControlKind(body[i].kind))
    ensures IsRun(body, |out|, i)
  {
  }

  function ShiftBy(order: seq<nat>, a: nat): (t: seq<nat>)
    ensures |t| == |order| && forall k :: 0 <= k < |order| ==> t[k] == a + order[k]
  {
    seq(|order|, k requires 0 <= k < |order| => a + order[k])
  }

  /** A flushed run is in place. */
  lemma {:induction false} Flushed(body: seq<Op>, out: seq<nat>, placed: set<string>, i: nat,
                                   edges: seq<ParentDirEdge>, order: seq<nat>)
    requires Sorting(body, out, placed, i) && IsRun(body, |out|, i)
    requires !RunWaitsLater(body, |out|, i) && Acyclic(RunEdges(body[|out|..i]))
    requires StableOrder(body[|out|..i], edges, order)
    ensures |out + ShiftBy(order, |out|)| == i
    ensures SortedTo(body, out + ShiftBy(order, |out|)) && RunsSort(body, i)
  {
    var more := out + ShiftBy(order, |out|);
    assert |order| == i - |out| by {
      hide Inferred, InOrder;
    }
    hide StableOrder, RunWaitsLater, Acyclic, RunEdges;
    forall a: nat, b: nat | IsRun(body, a, b) && b <= i
      ensures RunPlaced(body, a, b, more) && !RunWaitsLater(body, a, b) && Acyclic(RunEdges(body[a..b]))
    {
      if b <= |out| {
        RunStays(body, a, b, out, more);
      } else {
        RunsDisjoint(body, a, b, |out|, i);
      }
    }
  }

  lemma {:induction false} RunStays(body: seq<Op>, a: nat, b: nat, out: seq<nat>, more: seq<nat>)
    requires RunPlaced(body, a, b, out) && out <= more
    ensures RunPlaced(body, a, b, more)
  {
    hide StableOrder;
    var edges, order :| StableOrder(body[a..b], edges, order) && |order| == b - a &&
         forall k :: 0 <= k < b - a ==> out[a + k] == a + order[k];
    forall k | 0 <= k < b - a
      ensures more[a + k] == a + order[k]
    {
    }
  }

  lemma {:induction false} RunsDisjoint(body: seq<Op>, a: nat, b: nat, c: nat, d: nat)
    requires IsRun(body, a, b) && IsRun(body, c, d) && c < b <= d
    ensures a == c && b == d
  {
  }

  lemma {:induction false} ControlAppended(body: seq<Op>, out: seq<nat>)
    requires |out| < |body| && SortedTo(body, out) && RunsSort(body, |out|) && IsControlKind(body[|out|].kind)
    ensures SortedTo(body, out + [|out|]) && RunsSort(body, |out| + 1)
  {
    var more: seq<nat> := out + [|out|];
    hide RunPlaced, RunWaitsLater, Acyclic;
    forall a: nat, b: nat | IsRun(body, a, b) && b <= |more|
      ensures b <= |out| && RunPlaced(body, a, b, more)
    {
      assert !IsControlKind(body[b - 1].kind);
      RunStays(body, a, b, out, more);
    }
  }

  /** flush: sorts the run at |out| to i, if there is one, into out. */
  method Flush(body: seq<Op>, byId: map<string, nat>, was: seq<nat>, wasPlaced: set<string>, i: nat)
    returns (out: seq<nat>, placed: set<string>, err: Option<BodySort>)
    requires IndexesIds(byId, body) && Sorting(body, was, wasPlaced, i) && (i == |body| || IsControlKind(body[i].kind))
    ensures err.None? ==> |out| == i && SortedTo(body, out) && RunsSort(body, i) && Placed(body, i, placed)
    ensures err.Some? ==> !err.value.BodySorted? && !SortAccepts(body)
  {
    hide StableOrder, SortedTo, RunsSort, Placed, IndexesIds, Acyclic, RunWaitsLater;
    out, placed, err := was, wasPlaced, None;
    if |was| == i {
      return;
    }
    SortingRun(body, was, wasPlaced, i);
    var r;
    ghost var edges;
    r, edges := SortRunByDeps(body, |was|, i, wasPlaced, byId);
    match r {
      case RunLater(op, dep) =>
        err := Some(BodyLater(op, dep));
      case RunCircular(op) =>
        err := Some(BodyCircular(op));
      case RunSorted(order) =>
        Flushed(body, was, wasPlaced, i, edges, order);
        PlacedRun(body, |was|, i, wasPlaced);
        out := was + ShiftBy(order, |was|);
        placed := wasPlaced + RunIds(body, |was|, i);
    }
  }

  /** sortedApplyOrder: the body's indexes in apply order. */
  method SortedApplyOrder(body: seq<Op>) returns (r: BodySort)
    ensures r.BodySorted? <==> SortAccepts(body)
    ensures r.BodySorted? ==> |r.order| == |body| && SortedTo(body, r.order)
  {
    hide StableOrder, SortedTo, Placed, IndexesIds, Acyclic, RunWaitsLater, RunPlaced;
    var byId := IndexIds(body);
    var out: seq<nat>, placed: set<string>, err: Option<BodySort> := [], {}, None;
    NothingSorted(body);
    for i := 0 to |body|
      invariant Sorting(body, out, placed, i)
    {
      if IsControlKind(body[i].kind) {
        out, placed, err := Flush(body, byId, out, placed, i);
        if err.Some? {
          return err.value;
        }
        ControlAppended(body, out);
        PlacedControl(body, i, placed);
        out := out + [i];
      }
    }
    out, placed, err := Flush(body, byId, out, placed, |body|);
    if err.Some? {
      return err.value;
    }
    RangeRuns(body);
    r := BodySorted(out);
  }

  lemma {:induction false} NothingSorted(body: seq<Op>)
    ensures SortedTo(body, []) && RunsSort(body, 0) && Placed(body, 0, {})
  {
  }

  lemma {:induction false} RangeRuns(body: seq<Op>)
    ensures RunsSort(body, |body|) ==> SortAccepts(body)
  {
  }
}
