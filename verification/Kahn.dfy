/** The topological passes of api/apply_order.go: kahn, its cycle report and
    levelOrder. */
module Kahn {
  import opened Walks
  import opened Levels
  import opened DepGraphs
  import opened ReadyHeaps

  /** How many entries of list are not done. */
  function Remaining(list: seq<nat>, done: seq<nat>): nat {
    if list == [] then 0
    else Remaining(list[..|list| - 1], done) + (if list[|list| - 1] in done then 0 else 1)
  }

  lemma {:induction false} RemainingZero(list: seq<nat>, done: seq<nat>)
    ensures Remaining(list, done) == 0 <==> forall i :: 0 <= i < |list| ==> list[i] in done
  {
    if list != [] {
      var rest := list[..|list| - 1];
      RemainingZero(rest, done);
      assert forall i :: 0 <= i < |rest| ==> rest[i] == list[i];
    }
  }

  lemma {:induction false} RemainingNext(list: seq<nat>, done: seq<nat>, x: nat)
    requires x !in done
    ensures Remaining(list, done + [x]) + multiset(list)[x] == Remaining(list, done)
  {
    if list != [] {
      RemainingNext(list[..|list| - 1], done, x);
      assert list == list[..|list| - 1] + [list[|list| - 1]];
    }
  }

  lemma {:induction false} RemainingNone(list: seq<nat>)
    ensures Remaining(list, []) == |list|
  {
    if list != [] {
      RemainingNone(list[..|list| - 1]);
    }
  }

  /** v is still to come and everything it depends on is done. */
  ghost predicate Ready(g: DepGraph, done: seq<nat>, v: nat) {
    v < |g.deps| && v !in done && forall i :: 0 <= i < |g.deps[v]| ==> g.deps[v][i] in done
  }

  /** Entry k is, of the ops ready once the entries before it are done, the
      one with the lowest (rank, index). */
  ghost predicate TakenFirst(g: DepGraph, rank: seq<int>, order: seq<nat>, k: nat)
    requires |rank| == |g.deps| && k < |order|
  {
    Ready(g, order[..k], order[k]) &&
    forall y: nat :: Ready(g, order[..k], y) ==> NotAfter(rank, order[k], y)
  }

  /** The order of a whole pass, which ends when no op is ready. */
  ghost predicate KahnOrder(g: DepGraph, rank: seq<int>, order: seq<nat>)
    requires |rank| == |g.deps|
  {
    && (forall k :: 0 <= k < |order| ==> TakenFirst(g, rank, order, k))
    && (forall v: nat :: !Ready(g, order, v))
  }

  /** indeg[v] counts the deps of v that are not done. */
  ghost predicate Counts(g: DepGraph, order: seq<nat>, indeg: seq<int>) {
    |indeg| == |g.deps| && forall v: nat :: v < |indeg| ==> indeg[v] == Remaining(g.deps[v], order)
  }

  lemma {:induction false} ReadyCounted(g: DepGraph, order: seq<nat>, indeg: seq<int>, v: nat)
    requires Counts(g, order, indeg) && v < |g.deps|
    ensures Ready(g, order, v) <==> v !in order && indeg[v] == 0
  {
    RemainingZero(g.deps[v], order);
  }

  /** The heap holds each op that is not in done and has count 0, once. */
  ghost predicate HoldsReady(ops: seq<nat>, n: nat, done: seq<nat>, indeg: seq<int>)
    requires |indeg| == n
  {
    && (forall v: nat :: v in ops <==> v < n && v !in done && indeg[v] == 0)
    && (forall v: nat :: v in ops ==> multiset(ops)[v] == 1)
  }

  /** Mid-way through next's waiters: the first k of them are counted down. */
  ghost predicate CountsDown(g: DepGraph, order: seq<nat>, next: nat, k: nat, indeg: seq<int>)
    requires next < |g.waiters| && k <= |g.waiters[next]|
  {
    |indeg| == |g.deps| &&
    forall v: nat :: v < |indeg| ==> indeg[v] + multiset(g.waiters[next][..k])[v] == Remaining(g.deps[v], order)
  }

  lemma {:induction false} CountPrefix(list: seq<nat>, k: nat)
    requires k < |list|
    ensures multiset(list[..k + 1]) == multiset(list[..k]) + multiset{list[k]}
    ensures forall v :: multiset(list[..k + 1])[v] <= multiset(list)[v]
  {
    assert list[..k + 1] == list[..k] + [list[k]];
    assert list == list[..k + 1] + list[k + 1..];
  }

  /** Counting one waiter down: it still had next to wait for, and reaches 0
      only at next's last entry for it. */
  lemma {:induction false} CountDown(g: DepGraph, n: nat, order: seq<nat>, next: nat, k: nat, indeg: seq<int>)
    requires GraphOk(g, n) && next < n && next !in order && k < |g.waiters[next]|
    requires CountsDown(g, order, next, k, indeg)
    ensures var w := g.waiters[next][k];
            w < n && indeg[w] > 0 && CountsDown(g, order, next, k + 1, indeg[w := indeg[w] - 1])
  {
    var w := g.waiters[next][k];
    assert w in g.waiters[next];
    CountPrefix(g.waiters[next], k);
    RemainingNext(g.deps[w], order, next);
    assert multiset(g.deps[w])[next] == multiset(g.waiters[next])[w];
  }

  lemma {:induction false} CountedDown(g: DepGraph, n: nat, order: seq<nat>, next: nat, indeg: seq<int>)
    requires GraphOk(g, n) && next < n && next !in order && CountsDown(g, order, next, |g.waiters[next]|, indeg)
    ensures Counts(g, order + [next], indeg)
  {
    assert g.waiters[next][..|g.waiters[next]|] == g.waiters[next];
    forall v: nat | v < n
      ensures indeg[v] == Remaining(g.deps[v], order + [next])
    {
      RemainingNext(g.deps[v], order, next);
      assert multiset(g.deps[v])[next] == multiset(g.waiters[next])[v];
    }
  }

  lemma {:induction false} PushedReady(ops: seq<nat>, more: seq<nat>, n: nat, done: seq<nat>, indeg: seq<int>, w: nat)
    requires |indeg| == n && HoldsReady(ops, n, done, indeg) && w < n && indeg[w] == 1 && w !in done
    requires multiset(more) == multiset(ops) + multiset{w}
    ensures HoldsReady(more, n, done, indeg[w := 0])
  {
    assert forall v: nat :: v in more <==> v in multiset(more);
    assert forall v: nat :: v in ops <==> v in multiset(ops);
  }

  lemma {:induction false} LoweredReady(ops: seq<nat>, n: nat, done: seq<nat>, indeg: seq<int>, w: nat)
    requires |indeg| == n && HoldsReady(ops, n, done, indeg) && w < n && indeg[w] > 1
    ensures HoldsReady(ops, n, done, indeg[w := indeg[w] - 1])
  {
  }

  lemma {:induction false} PoppedReady(ops: seq<nat>, rest: seq<nat>, n: nat, done: seq<nat>, indeg: seq<int>,
                                       next: nat)
    requires |indeg| == n && HoldsReady(ops, n, done, indeg) && multiset(ops) == multiset(rest) + multiset{next}
    ensures next < n && next !in done && indeg[next] == 0 && next in ops
    ensures HoldsReady(rest, n, done + [next], indeg)
  {
    assert forall v: nat :: v in rest <==> v in multiset(rest);
    assert forall v: nat :: v in ops <==> v in multiset(ops);
    assert next in multiset(ops);
  }

  /** Counts next's waiters down and pushes those that get ready. */
  method Release(g: DepGraph, heap: ReadyHeap, was: seq<int>, ghost order: seq<nat>,
                 next: nat) returns (indeg: seq<int>)
    requires GraphOk(g, |g.deps|) && next < |g.deps| && next !in order && |heap.rank| == |g.deps|
    requires Counts(g, order, was) && heap.Valid() && HoldsReady(heap.ops, |g.deps|, order + [next], was)
    requires forall i :: 0 <= i < |order| ==> order[i] < |was| && was[order[i]] == 0
    requires was[next] == 0
    modifies heap
    ensures Counts(g, order + [next], indeg) && heap.Valid() && HoldsReady(heap.ops, |g.deps|, order + [next], indeg)
    ensures forall i :: 0 <= i < |order + [next]| ==> (order + [next])[i] < |indeg| && indeg[(order + [next])[i]] == 0
  {
    hide GraphOk, HoldsReady, Heap;
    ghost var n, done := |g.deps|, order + [next];
    indeg := was;
    GraphLists(g, n);
    for k := 0 to |g.waiters[next]|
      invariant CountsDown(g, order, next, k, indeg) && heap.Valid() && HoldsReady(heap.ops, n, done, indeg)
      invariant forall i :: 0 <= i < |done| ==> done[i] < |indeg| && indeg[done[i]] == 0
    {
      var w := g.waiters[next][k];
      CountDown(g, n, order, next, k, indeg);
      ghost var ops := heap.ops;
      if indeg[w] == 1 {
        heap.Push(w);
        PushedReady(ops, heap.ops, n, done, indeg, w);
      } else {
        LoweredReady(ops, n, done, indeg, w);
      }
      indeg := indeg[w := indeg[w] - 1];
    }
    CountedDown(g, n, order, next, indeg);
  }

  lemma {:induction false} GraphLists(g: DepGraph, n: nat)
    requires GraphOk(g, n)
    ensures |g.deps| == |g.waiters| == n
  {
  }

  /** The order so far: every entry was taken first. */
  ghost predicate TakenAll(g: DepGraph, rank: seq<int>, order: seq<nat>)
    requires |rank| == |g.deps|
  {
    forall k :: 0 <= k < |order| ==> TakenFirst(g, rank, order, k)
  }

  lemma {:induction false} TakeNext(g: DepGraph, rank: seq<int>, order: seq<nat>, indeg: seq<int>, ops: seq<nat>,
                                    next: nat)
    requires |rank| == |g.deps| && TakenAll(g, rank, order) && Counts(g, order, indeg)
    requires HoldsReady(ops, |g.deps|, order, indeg) && next in ops
    requires forall y :: y in ops ==> y < |rank| && NotAfter(rank, next, y)
    ensures TakenAll(g, rank, order + [next])
  {
    var more := order + [next];
    forall k | 0 <= k < |more|
      ensures TakenFirst(g, rank, more, k)
    {
      if k < |order| {
        assert TakenFirst(g, rank, order, k);
        assert more[..k] == order[..k];
      } else {
        assert more[..k] == order;
        ReadyCounted(g, order, indeg, next);
        forall y: nat | Ready(g, order, y)
          ensures NotAfter(rank, next, y)
        {
          ReadyCounted(g, order, indeg, y);
        }
      }
    }
  }

  lemma {:induction false} TakenDistinct(g: DepGraph, rank: seq<int>, order: seq<nat>)
    requires |rank| == |g.deps| && TakenAll(g, rank, order)
    ensures Distinct(order) && |order| <= |g.deps| && forall k :: 0 <= k < |order| ==> order[k] < |g.deps|
  {
    forall j, k | 0 <= j < k < |order|
      ensures order[j] != order[k]
    {
      assert TakenFirst(g, rank, order, k);
      assert order[j] == order[..k][j];
    }
    forall k | 0 <= k < |order|
      ensures order[k] < |g.deps|
    {
      assert TakenFirst(g, rank, order, k);
    }
    DistinctBelow(order, |g.deps|);
  }

  lemma {:induction false} NoneReady(g: DepGraph, rank: seq<int>, order: seq<nat>, indeg: seq<int>)
    requires |rank| == |g.deps| && TakenAll(g, rank, order) && Counts(g, order, indeg)
    requires HoldsReady([], |g.deps|, order, indeg)
    ensures KahnOrder(g, rank, order)
  {
    forall v: nat
      ensures !Ready(g, order, v)
    {
      if v < |g.deps| {
        ReadyCounted(g, order, indeg, v);
      }
    }
  }

  /** The ops without deps, and every op's dep count. */
  method StartCounts(g: DepGraph) returns (indeg: seq<int>, ready: seq<nat>)
    ensures Counts(g, [], indeg) && HoldsReady(ready, |g.deps|, [], indeg)
    ensures forall k :: 0 <= k < |ready| ==> ready[k] < |g.deps|
  {
    indeg := seq(|g.deps|, i requires 0 <= i < |g.deps| => |g.deps[i]|);
    ready := [];
    for i := 0 to |g.deps|
      invariant forall v: nat :: v in ready <==> v < i && indeg[v] == 0
      invariant forall v: nat :: v in ready ==> multiset(ready)[v] == 1
      invariant forall k :: 0 <= k < |ready| ==> ready[k] < |g.deps|
    {
      if indeg[i] == 0 {
        var v: nat := i;
        assert v !in ready && multiset(ready + [v]) == multiset(ready) + multiset{v};
        ready := ready + [v];
      }
    }
    forall v: nat | v < |indeg|
      ensures indeg[v] == Remaining(g.deps[v], [])
    {
      RemainingNone(g.deps[v]);
    }
  }

  /** kahn: always takes the ready op with the lowest (rank, index). */
  method KahnPass(g: DepGraph, rank: seq<int>) returns (order: seq<nat>, indeg: seq<int>)
    requires GraphOk(g, |g.deps|) && |rank| == |g.deps|
    ensures KahnOrder(g, rank, order) && Counts(g, order, indeg)
  {
    hide GraphOk, HoldsReady, Heap, Counts, TakenFirst;
    var ready;
    indeg, ready := StartCounts(g);
    var heap := new ReadyHeap(ready, rank);
    SameReady(ready, heap.ops, |g.deps|, [], indeg);
    order := [];
    while |heap.ops| > 0
      invariant heap.Valid() && heap.rank == rank && fresh(heap)
      invariant TakenAll(g, rank, order) && Counts(g, order, indeg) && |indeg| == |g.deps|
      invariant HoldsReady(heap.ops, |g.deps|, order, indeg)
      invariant forall i :: 0 <= i < |order| ==> order[i] < |indeg| && indeg[order[i]] == 0
      decreases |g.deps| - |order|
    {
      ghost var ops := heap.ops;
      var next := heap.Pop();
      PoppedReady(ops, heap.ops, |g.deps|, order, indeg, next);
      TakeNext(g, rank, order, indeg, ops, next);
      TakenDistinct(g, rank, order + [next]);
      indeg := Release(g, heap, indeg, order, next);
      order := order + [next];
      CountsLength(g, order, indeg);
    }
    NoneReady(g, rank, order, indeg);
  }

  lemma {:induction false} CountsLength(g: DepGraph, order: seq<nat>, indeg: seq<int>)
    requires Counts(g, order, indeg)
    ensures |indeg| == |g.deps|
  {
  }

  lemma {:induction false} SameReady(ops: seq<nat>, more: seq<nat>, n: nat, done: seq<nat>, indeg: seq<int>)
    requires |indeg| == n && HoldsReady(ops, n, done, indeg) && multiset(ops) == multiset(more)
    ensures HoldsReady(more, n, done, indeg)
  {
    assert forall v: nat :: v in more <==> v in multiset(more);
    assert forall v: nat :: v in ops <==> v in multiset(ops);
  }

  /** Every op of order comes after everything it depends on. */
  ghost predicate DepsFirst(g: DepGraph, order: seq<nat>) {
    forall k :: 0 <= k < |order| && order[k] < |g.deps| ==>
      forall i :: 0 <= i < |g.deps[order[k]]| ==> g.deps[order[k]][i] in order[..k]
  }

  lemma {:induction false} KahnDepsFirst(g: DepGraph, rank: seq<int>, order: seq<nat>)
    requires |rank| == |g.deps| && KahnOrder(g, rank, order)
    ensures DepsFirst(g, order) && Distinct(order) && forall k :: 0 <= k < |order| ==> order[k] < |g.deps|
  {
    TakenDistinct(g, rank, order);
    forall k | 0 <= k < |order|
      ensures forall i :: 0 <= i < |g.deps[order[k]]| ==> g.deps[order[k]][i] in order[..k]
    {
      assert TakenFirst(g, rank, order, k);
    }
  }

  /** With ranks that never drop along an edge the pass emits them in order. */
  lemma {:induction false} KahnRankRises(g: DepGraph, rank: seq<int>, order: seq<nat>, j: nat, k: nat)
    requires GraphOk(g, |g.deps|) && |rank| == |g.deps| && KahnOrder(g, rank, order) && j <= k < |order|
    requires forall u: nat, v: nat :: (u, v) in DepEdges(g) && u < |rank| && v < |rank| ==> rank[u] <= rank[v]
    ensures order[j] < |rank| && order[k] < |rank| && rank[order[j]] <= rank[order[k]]
    decreases k - j
  {
    KahnDepsFirst(g, rank, order);
    if j < k {
      KahnRankRises(g, rank, order, j, k - 1);
      var u, v := order[k - 1], order[k];
      assert TakenFirst(g, rank, order, k - 1) && TakenFirst(g, rank, order, k);
      if !Ready(g, order[..k - 1], v) {
        assert order[..k] == order[..k - 1] + [u];
        assert v !in order[..k - 1];
        var i :| 0 <= i < |g.deps[v]| && g.deps[v][i] !in order[..k - 1];
        assert g.deps[v][i] in order[..k];
        assert g.deps[v][i] == u && u in g.deps[v];
        EdgeListed(g, |g.deps|, u, v);
      }
    }
  }

  /** v lies on a cycle. */
  ghost predicate OnCycle(e: Edges, v: nat) {
    exists w :: (v, w) in e && Reach(e, w, v)
  }

  /** A cycle keeps v from ever getting ready. */
  ghost predicate Blocked(e: Edges, v: nat) {
    exists c :: OnCycle(e, c) && Reach(e, c, v)
  }

  lemma {:induction false} DepBefore(g: DepGraph, order: seq<nat>, k: nat, u: nat) returns (t: nat)
    requires GraphOk(g, |g.deps|) && DepsFirst(g, order) && k < |order| && order[k] < |g.deps|
    requires (u, order[k]) in DepEdges(g)
    ensures t < k && order[t] == u
  {
    EdgeListed(g, |g.deps|, u, order[k]);
    var i :| 0 <= i < |g.deps[order[k]]| && g.deps[order[k]][i] == u;
    assert u in order[..k];
    t :| 0 <= t < k && order[t] == u;
  }

  /** Everything that reaches an emitted op was emitted no later. */
  lemma {:induction false} EmittedAncestors(g: DepGraph, order: seq<nat>, k: nat, u: nat)
    requires GraphOk(g, |g.deps|) && DepsFirst(g, order) && k < |order|
    requires (forall i :: 0 <= i < |order| ==> order[i] < |g.deps|)
    requires Reach(DepEdges(g), u, order[k])
    ensures u in order[..k + 1] && (u != order[k] ==> u in order[..k])
    decreases k
  {
    if u != order[k] {
      var w := ReachLast(DepEdges(g), u, order[k]);
      var j := DepBefore(g, order, k, w);
      EmittedAncestors(g, order, j, u);
      assert order[..j + 1] <= order[..k];
    }
  }

  /** An emitted op on a cycle would have been emitted twice. */
  lemma {:induction false} CycleTwice(g: DepGraph, order: seq<nat>, j: nat) returns (t: nat)
    requires GraphOk(g, |g.deps|) && DepsFirst(g, order) && j < |order|
    requires forall i :: 0 <= i < |order| ==> order[i] < |g.deps|
    requires OnCycle(DepEdges(g), order[j])
    ensures t < j && order[t] == order[j]
  {
    hide DepsFirst, GraphOk;
    var e, c := DepEdges(g), order[j];
    var w: nat :| (c, w) in e && Reach(e, w, c);
    EmittedAncestors(g, order, j, w);
    var i: nat :| i < j + 1 && order[i] == w;
    t := DepBefore(g, order, i, c);
  }

  lemma {:induction false} EmittedNotBlocked(g: DepGraph, order: seq<nat>, k: nat)
    requires GraphOk(g, |g.deps|) && DepsFirst(g, order) && Distinct(order) && k < |order|
    requires forall i :: 0 <= i < |order| ==> order[i] < |g.deps|
    ensures !Blocked(DepEdges(g), order[k])
  {
    var e := DepEdges(g);
    if Blocked(e, order[k]) {
      var c: nat :| OnCycle(e, c) && Reach(e, c, order[k]);
      EmittedAncestors(g, order, k, c);
      var j: nat :| j < k + 1 && order[j] == c;
      var t := CycleTwice(g, order, j);
    }
  }

  /** The ops still blocked that reach v. */
  ghost function BlockedAncestors(g: DepGraph, order: seq<nat>, v: nat): set<nat> {
    set u: nat | u < |g.deps| && u !in order && Reach(DepEdges(g), u, v)
  }

  /** Going back along unemitted deps, the ancestors shrink until a cycle. */
  lemma {:induction false} UnemittedBlocked(g: DepGraph, order: seq<nat>, v: nat)
    requires GraphOk(g, |g.deps|) && (forall u: nat :: !Ready(g, order, u)) && v < |g.deps| && v !in order
    ensures Blocked(DepEdges(g), v)
    decreases |BlockedAncestors(g, order, v)|
  {
    var e := DepEdges(g);
    assert !Ready(g, order, v);
    var i :| 0 <= i < |g.deps[v]| && g.deps[v][i] !in order;
    var u: nat := g.deps[v][i];
    assert u in g.deps[v];
    EdgeListed(g, |g.deps|, u, v);
    ReachEdge(e, u, v);
    if Reach(e, v, u) {
      assert OnCycle(e, u);
    } else {
      forall w: nat | w in BlockedAncestors(g, order, u)
        ensures w in BlockedAncestors(g, order, v)
      {
        ReachTrans(e, w, u, v);
      }
      ReachRefl(e, v);
      assert v in BlockedAncestors(g, order, v) && v !in BlockedAncestors(g, order, u);
      ProperSubsetCard(BlockedAncestors(g, order, u), BlockedAncestors(g, order, v));
      UnemittedBlocked(g, order, u);
      var c: nat :| OnCycle(e, c) && Reach(e, c, u);
      ReachTrans(e, c, u, v);
    }
  }

  /** A whole pass emits exactly the ops no cycle blocks. */
  lemma {:induction false} KahnEmits(g: DepGraph, rank: seq<int>, order: seq<nat>, v: nat)
    requires GraphOk(g, |g.deps|) && |rank| == |g.deps| && KahnOrder(g, rank, order) && v < |g.deps|
    ensures v in order <==> !Blocked(DepEdges(g), v)
  {
    KahnDepsFirst(g, rank, order);
    if v in order {
      var k: nat :| k < |order| && order[k] == v;
      EmittedNotBlocked(g, order, k);
    } else {
      UnemittedBlocked(g, order, v);
    }
  }

  /** order holds each of the n ops once. */
  ghost predicate Permutation(n: nat, order: seq<nat>) {
    |order| == n && Distinct(order) && forall k :: 0 <= k < |order| ==> order[k] < n
  }

  lemma {:induction false} PermutationHolds(n: nat, order: seq<nat>, v: nat)
    requires Permutation(n, order) && v < n
    ensures v in order
  {
    DistinctBelow(order, n);
  }

  /** A pass emits every op exactly when the graph is acyclic. */
  lemma {:induction false} KahnComplete(g: DepGraph, rank: seq<int>, order: seq<nat>)
    requires GraphOk(g, |g.deps|) && |rank| == |g.deps| && KahnOrder(g, rank, order)
    ensures |order| == |g.deps| <==> Acyclic(DepEdges(g))
    ensures |order| <= |g.deps| && (|order| == |g.deps| ==> Permutation(|g.deps|, order))
  {
    var e := DepEdges(g);
    KahnDepsFirst(g, rank, order);
    DistinctBelow(order, |g.deps|);
    if |order| == |g.deps| {
      forall u: nat, v: nat | (u, v) in e
        ensures !Reach(e, v, u)
      {
        if Reach(e, v, u) {
          EdgeListed(g, |g.deps|, u, v);
          KahnEmits(g, rank, order, u);
          ReachRefl(e, u);
          assert OnCycle(e, u);
        }
      }
    } else {
      if forall v: nat :: v < |g.deps| ==> v in order {
        AllOf(|g.deps|, order);
      }
      var v: nat :| v < |g.deps| && v !in order;
      KahnEmits(g, rank, order, v);
      var c: nat :| OnCycle(e, c) && Reach(e, c, v);
      var w: nat :| (c, w) in e && Reach(e, w, c);
    }
  }

  lemma {:induction false} AllOf(n: nat, order: seq<nat>)
    requires forall v: nat :: v < n ==> v in order
    ensures n <= |order|
  {
    if n > 0 {
      var last: nat := n - 1;
      assert last in order;
      var k: nat :| k < |order| && order[k] == last;
      var rest := order[..k] + order[k + 1..];
      forall v: nat | v < n - 1
        ensures v in rest
      {
        assert v in order;
        var j: nat :| j < |order| && order[j] == v;
        if j < k {
          assert rest[j] == v;
        } else {
          assert rest[j - 1] == v;
        }
      }
      AllOf(n - 1, rest);
    }
  }

  /** After a whole pass a count is positive exactly for an op that was not
      emitted, which is an op some cycle blocks. */
  lemma {:induction false} LeftOver(g: DepGraph, rank: seq<int>, order: seq<nat>, indeg: seq<int>, v: nat)
    requires GraphOk(g, |g.deps|) && |rank| == |g.deps| && KahnOrder(g, rank, order) && Counts(g, order, indeg)
    requires v < |g.deps|
    ensures indeg[v] >= 0 && (indeg[v] > 0 <==> v !in order) && (indeg[v] > 0 <==> Blocked(DepEdges(g), v))
  {
    RemainingZero(g.deps[v], order);
    assert !Ready(g, order, v);
    KahnDepsFirst(g, rank, order);
    if v in order {
      var k: nat :| k < |order| && order[k] == v;
      assert forall i :: 0 <= i < |g.deps[v]| ==> g.deps[v][i] in order[..k];
    }
    KahnEmits(g, rank, order, v);
  }
}
