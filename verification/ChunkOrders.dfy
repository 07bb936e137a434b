/** What a chunk order is asked to be, independent of how one is found: orders
    and level assignments correspond, and the least levels give the fewest
    chunks. */
module ChunkOrders {
  import opened Levels
  import opened Ops
  import opened DepGraphs
  import opened ApplyLevels
  import opened Kahn

  /** The number of class changes before entry k: the index of its chunk. */
  function ChunkOf(elev: seq<bool>, order: seq<nat>, k: nat): nat
    requires k < |order| && forall i :: 0 <= i < |order| ==> order[i] < |elev|
  {
    if k == 0 then 0
    else ChunkOf(elev, order, k - 1) + (if elev[order[k]] != elev[order[k - 1]] then 1 else 0)
  }

  /** How many privilege chunks the order is cut into. */
  function ChunkTotal(elev: seq<bool>, order: seq<nat>): nat
    requires forall i :: 0 <= i < |order| ==> order[i] < |elev|
  {
    if order == [] then 0 else ChunkOf(elev, order, |order| - 1) + 1
  }

  ghost predicate InOrder(dep: Edges, order: seq<nat>) {
    forall j, k :: 0 <= j < |order| && 0 <= k < |order| && (order[j], order[k]) in dep ==> j < k
  }

  /** A pass puts every dependency first. */
  lemma {:induction false} KahnInOrder(g: DepGraph, rank: seq<int>, order: seq<nat>)
    requires GraphOk(g, |g.deps|) && |rank| == |g.deps| && KahnOrder(g, rank, order)
    ensures InOrder(DepEdges(g), order)
  {
    KahnDepsFirst(g, rank, order);
    hide KahnOrder;
    forall j, k | 0 <= j < |order| && 0 <= k < |order| && (order[j], order[k]) in DepEdges(g)
      ensures j < k
    {
      var t := DepBefore(g, order, k, order[j]);
      assert order[t] == order[j];
    }
  }

  /** Both ends of every watch of ws lie in one chunk. */
  ghost predicate ShareChunks(elev: seq<bool>, ws: set<WatchPair>, order: seq<nat>)
    requires forall i :: 0 <= i < |order| ==> order[i] < |elev|
  {
    forall j, k :: 0 <= j < |order| && 0 <= k < |order| && WatchPair(order[j], order[k]) in ws ==>
      ChunkOf(elev, order, j) == ChunkOf(elev, order, k)
  }

  /** An order of all the ops that meets the dependencies and the watches. */
  ghost predicate ValidOrder(g: Constraints, order: seq<nat>) {
    Permutation(|g.elev|, order) && InOrder(g.dep, order) && ShareChunks(g.elev, g.ws, order)
  }

  lemma {:induction false} ChunkParity(elev: seq<bool>, order: seq<nat>, k: nat)
    requires k < |order| && forall i :: 0 <= i < |order| ==> order[i] < |elev|
    ensures ChunkOf(elev, order, k) % 2 == 0 <==> elev[order[k]] == elev[order[0]]
  {
    if k > 0 {
      ChunkParity(elev, order, k - 1);
    }
  }

  lemma {:induction false} ChunksRise(elev: seq<bool>, order: seq<nat>, j: nat, k: nat)
    requires j <= k < |order| && forall i :: 0 <= i < |order| ==> order[i] < |elev|
    ensures ChunkOf(elev, order, j) <= ChunkOf(elev, order, k)
    ensures elev[order[j]] != elev[order[k]] ==> ChunkOf(elev, order, j) < ChunkOf(elev, order, k)
    decreases k
  {
    if j < k {
      ChunksRise(elev, order, j, k - 1);
    }
    ChunkParity(elev, order, j);
    ChunkParity(elev, order, k);
  }

  ghost function Position(order: seq<nat>, v: nat): (k: nat)
    requires v in order
    ensures k < |order| && order[k] == v
  {
    var k: nat :| k < |order| && order[k] == v;
    k
  }

  /** The chunk of each op, as a level assignment. */
  ghost function LevelsOf(elev: seq<bool>, order: seq<nat>): (level: seq<int>)
    requires Permutation(|elev|, order)
    ensures |level| == |elev|
    ensures forall k :: 0 <= k < |order| ==> level[order[k]] == ChunkOf(elev, order, k)
  {
    PermutationAll(|elev|, order);
    var level := seq(|elev|, i requires 0 <= i < |elev| => ChunkOf(elev, order, Position(order, i)));
    PositionsUnique(elev, order, level);
    level
  }

  lemma {:induction false} PermutationAll(n: nat, order: seq<nat>)
    requires Permutation(n, order)
    ensures forall v: nat :: v < n ==> v in order
  {
    forall v: nat | v < n
      ensures v in order
    {
      PermutationHolds(n, order, v);
    }
  }

  lemma {:induction false} PositionsUnique(elev: seq<bool>, order: seq<nat>, level: seq<int>)
    requires Permutation(|elev|, order) && |level| == |elev| && forall v: nat :: v < |elev| ==> v in order
    requires forall i: nat :: i < |elev| ==> level[i] == ChunkOf(elev, order, Position(order, i))
    ensures forall k :: 0 <= k < |order| ==> level[order[k]] == ChunkOf(elev, order, k)
  {
    forall k | 0 <= k < |order|
      ensures level[order[k]] == ChunkOf(elev, order, k)
    {
      assert Position(order, order[k]) == k;
    }
  }

  /** The chunks of a valid order are valid levels. */
  lemma {:induction false} OrderLevels(g: Constraints, order: seq<nat>)
    requires Wf(g) && ValidOrder(g, order) && |order| > 0
    ensures ValidLevels(g, g.elev[order[0]], LevelsOf(g.elev, order))
  {
    var level := LevelsOf(g.elev, order);
    PermutationAll(|g.elev|, order);
    forall i: nat | i < |level|
      ensures 0 <= level[i] && (level[i] % 2 == 0 <==> g.elev[i] == g.elev[order[0]])
    {
      ChunkParity(g.elev, order, Position(order, i));
      assert level[order[Position(order, i)]] == level[i];
    }
    forall u: nat, v: nat | (u, v) in g.dep && u < |level| && v < |level|
      ensures level[u] <= level[v] && (g.elev[u] != g.elev[v] ==> level[u] < level[v])
    {
      var j, k := Position(order, u), Position(order, v);
      assert (order[j], order[k]) in g.dep;
      ChunksRise(g.elev, order, j, k);
      assert level[order[j]] == level[u] && level[order[k]] == level[v];
    }
    forall p | p in g.ws && p.gated < |level| && p.watched < |level|
      ensures level[p.gated] == level[p.watched]
    {
      var j, k := Position(order, p.gated), Position(order, p.watched);
      assert p == WatchPair(order[j], order[k]);
      assert level[order[j]] == level[p.gated] && level[order[k]] == level[p.watched];
    }
  }

  /** Levels never drop along the order. */
  ghost predicate LevelSorted(level: seq<int>, order: seq<nat>) {
    forall j, k :: 0 <= j <= k < |order| && order[j] < |level| && order[k] < |level| ==>
      level[order[j]] <= level[order[k]]
  }

  lemma {:induction false} ChunkWithinLevel(elev: seq<bool>, start: bool, level: seq<int>, order: seq<nat>, k: nat)
    requires RightParity(elev, start, level) && LevelSorted(level, order)
    requires k < |order| && forall i :: 0 <= i < |order| ==> order[i] < |elev|
    ensures ChunkOf(elev, order, k) <= level[order[k]]
  {
    if k > 0 {
      ChunkWithinLevel(elev, start, level, order, k - 1);
      assert level[order[k - 1]] <= level[order[k]];
    }
  }

  lemma {:induction false} SameLevelSameChunk(elev: seq<bool>, start: bool, level: seq<int>, order: seq<nat>, j: nat,
                                              k: nat)
    requires RightParity(elev, start, level) && LevelSorted(level, order)
    requires j <= k < |order| && forall i :: 0 <= i < |order| ==> order[i] < |elev|
    requires level[order[j]] == level[order[k]]
    ensures ChunkOf(elev, order, j) == ChunkOf(elev, order, k)
    decreases k
  {
    if j < k {
      assert level[order[j]] <= level[order[k - 1]] <= level[order[k]];
      SameLevelSameChunk(elev, start, level, order, j, k - 1);
    }
  }

  /** Sorting the ops by valid levels, dependencies first, gives a valid order. */
  lemma {:induction false} SortedOrderValid(g: Constraints, start: bool, level: seq<int>, order: seq<nat>)
    requires ValidLevels(g, start, level) && LevelSorted(level, order)
    requires Permutation(|g.elev|, order) && InOrder(g.dep, order)
    ensures ValidOrder(g, order)
  {
    forall j, k | 0 <= j < |order| && 0 <= k < |order| && WatchPair(order[j], order[k]) in g.ws
      ensures ChunkOf(g.elev, order, j) == ChunkOf(g.elev, order, k)
    {
      assert level[order[j]] == level[order[k]];
      if j <= k {
        SameLevelSameChunk(g.elev, start, level, order, j, k);
      } else {
        SameLevelSameChunk(g.elev, start, level, order, k, j);
      }
    }
  }

  lemma {:induction false} LeastBelow(g: Constraints, start: bool, level: seq<int>, other: seq<int>, i: nat)
    requires LeastLevels(g, start, level) && ValidLevels(g, start, other) && i < |g.elev|
    ensures i < |level| && i < |other| && level[i] <= other[i]
  {
  }

  lemma {:induction false} LastLevel(elev: seq<bool>, other: seq<nat>, v: nat)
    requires Permutation(|elev|, other) && v < |elev|
    ensures LevelsOf(elev, other)[v] <= ChunkOf(elev, other, |other| - 1)
  {
    hide ChunkOf;
    PermutationAll(|elev|, other);
    var k := Position(other, v);
    assert LevelsOf(elev, other)[other[k]] == ChunkOf(elev, other, k);
    ChunksRise(elev, other, k, |other| - 1);
  }

  /** No valid order that begins with class start has fewer chunks than one
      sorted by the least levels for start. */
  lemma {:induction false} LeastIsFewest(g: Constraints, start: bool, level: seq<int>, order: seq<nat>, other: seq<nat>)
    requires Wf(g) && LeastLevels(g, start, level) && LevelSorted(level, order) && Permutation(|g.elev|, order)
    requires ValidOrder(g, other) && |other| > 0 && g.elev[other[0]] == start
    ensures ChunkTotal(g.elev, order) <= ChunkTotal(g.elev, other)
  {
    hide DepsRise, WatchesLevel, ShareChunks, InOrder;
    var last := |order| - 1;
    OrderLevels(g, other);
    LeastBelow(g, start, level, LevelsOf(g.elev, other), order[last]);
    LastLevel(g.elev, other, order[last]);
    hide ValidOrder;
    ChunkWithinLevel(g.elev, start, level, order, last);
  }

  /** Fewest chunks of all valid orders, whatever class they begin with. */
  ghost predicate FewestChunks(g: Constraints, order: seq<nat>) {
    ValidOrder(g, order) &&
    forall other :: ValidOrder(g, other) ==> ChunkTotal(g.elev, order) <= ChunkTotal(g.elev, other)
  }

  /** The better of the two least orders is best of all. */
  lemma {:induction false} BetterIsFewest(g: Constraints, start: bool, level: seq<int>, order: seq<nat>,
                                          level2: seq<int>, order2: seq<nat>)
    requires Wf(g) && |g.elev| > 0
    requires LeastLevels(g, start, level) && LevelSorted(level, order) && Permutation(|g.elev|, order)
    requires InOrder(g.dep, order)
    requires LeastLevels(g, !start, level2) && LevelSorted(level2, order2) && Permutation(|g.elev|, order2)
    requires InOrder(g.dep, order2)
    ensures FewestChunks(g, if ChunkTotal(g.elev, order2) < ChunkTotal(g.elev, order) then order2 else order)
  {
    SortedOrderValid(g, start, level, order);
    SortedOrderValid(g, !start, level2, order2);
    forall other | ValidOrder(g, other)
      ensures ChunkTotal(g.elev, order) <= ChunkTotal(g.elev, other) ||
              ChunkTotal(g.elev, order2) <= ChunkTotal(g.elev, other)
    {
      if g.elev[other[0]] == start {
        LeastIsFewest(g, start, level, order, other);
      } else {
        LeastIsFewest(g, !start, level2, order2, other);
      }
    }
  }

  /** Some order meets the dependencies and shares chunks for the watches
      exactly when some levels do. */
  lemma {:induction false} OrdersAndLevels(g: Constraints, order: seq<nat>)
    requires Wf(g) && ValidOrder(g, order) && |g.elev| > 0
    ensures Satisfiable(g, true) && Satisfiable(g, false)
  {
    OrderLevels(g, order);
    Solvability(g, true);
    Solvability(g, false);
    assert Satisfiable(g, g.elev[order[0]]);
  }

  method CountChunks(elev: seq<bool>, order: seq<nat>) returns (n: nat)
    requires forall i :: 0 <= i < |order| ==> order[i] < |elev|
    ensures n == ChunkTotal(elev, order)
  {
    if |order| == 0 {
      return 0;
    }
    n := 1;
    for k := 1 to |order|
      invariant n == ChunkOf(elev, order, k - 1) + 1
    {
      if elev[order[k]] != elev[order[k - 1]] {
        n := n + 1;
      }
    }
  }

  /** The ops an order of indexes stands for. */
  function Picked(body: seq<Op>, order: seq<nat>): (out: seq<Op>)
    requires forall i :: 0 <= i < |order| ==> order[i] < |body|
    ensures |out| == |order| && forall k :: 0 <= k < |out| ==> out[k] == body[order[k]]
  {
    seq(|order|, k requires 0 <= k < |order| => body[order[k]])
  }

  /** Reordering by a permutation keeps every op as often as it was. */
  lemma {:induction false} PickedMultiset(body: seq<Op>, order: seq<nat>)
    requires Permutation(|body|, order)
    ensures multiset(Picked(body, order)) == multiset(body)
    decreases |body|
  {
    if |body| > 0 {
      hide Permutation;
      var last: nat := |body| - 1;
      PermutationHolds(|body|, order, last);
      var k: nat :| k < |order| && order[k] == last;
      OrderSize(|body|, order);
      var rest := order[..k] + order[k + 1..];
      var shorter := body[..last];
      WithoutLast(|body|, order, k);
      OthersBelow(|body|, order, k);
      PickedMultiset(shorter, rest);
      PickedSplit(body, order, k);
      hide Picked;
      assert body == shorter + [body[last]];
    }
  }

  lemma {:induction false} OrderSize(n: nat, order: seq<nat>)
    requires Permutation(n, order)
    ensures |order| == n && forall i :: 0 <= i < |order| ==> order[i] < n
  {
  }

  lemma {:induction false} OthersBelow(n: nat, order: seq<nat>, k: nat)
    requires n > 0 && Permutation(n, order) && k < n && order[k] == n - 1
    ensures forall i :: 0 <= i < |order| ==> order[i] < n && (i != k ==> order[i] < n - 1)
  {
  }

  lemma {:induction false} WithoutLast(n: nat, order: seq<nat>, k: nat)
    requires n > 0 && Permutation(n, order) && k < n && order[k] == n - 1
    ensures Permutation(n - 1, order[..k] + order[k + 1..])
  {
  }

  lemma {:induction false} PickedSplit(body: seq<Op>, order: seq<nat>, k: nat)
    requires |body| > 0 && k < |order| && (forall i :: 0 <= i < |order| ==> order[i] < |body|) && order[k] == |body| - 1
    requires forall i :: 0 <= i < |order| && i != k ==> order[i] < |body| - 1
    ensures var rest := order[..k] + order[k + 1..];
            (forall i :: 0 <= i < |rest| ==> rest[i] < |body| - 1) &&
            multiset(Picked(body, order)) == multiset(Picked(body[..|body| - 1], rest)) + multiset{body[|body| - 1]}
  {
    var all, rest, shorter := Picked(body, order), order[..k] + order[k + 1..], body[..|body| - 1];
    assert all == all[..k] + [body[|body| - 1]] + all[k + 1..];
    assert Picked(shorter, rest) == all[..k] + all[k + 1..];
  }
}
