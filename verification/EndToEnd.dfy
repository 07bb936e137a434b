/** The whole apply: once the chunk check accepts a plan and every chunk
    sorts, each op comes after an op carrying every ID it depends on. */
module EndToEnd {
  import opened Walks
  import opened Ops
  import opened DepGraphs
  import opened PathDeps
  import opened Kahn
  import opened ChunkOrders
  import opened ChunkChecks
  import opened ApplySort

  /** Every resource op lies in a run. */
  lemma {:induction false} RunAround(body: seq<Op>, i: nat) returns (a: nat, b: nat)
    requires i < |body| && !IsControlKind(body[i].kind)
    ensures a <= i < b && IsRun(body, a, b)
  {
    a, b := i, i + 1;
    while a > 0 && !IsControlKind(body[a - 1].kind)
      invariant a <= i && forall k :: a <= k <= i ==> !IsControlKind(body[k].kind)
    {
      a := a - 1;
    }
    while b < |body| && !IsControlKind(body[b].kind)
      invariant i < b <= |body| && forall k :: i <= k < b ==> !IsControlKind(body[k].kind)
    {
      b := b + 1;
    }
  }

  /** The order a run is placed in. */
  lemma {:induction false} RunFacts(body: seq<Op>, a: nat, b: nat, out: seq<nat>) returns (order: seq<nat>)
    requires RunPlaced(body, a, b, out)
    ensures a <= b <= |body| && b <= |out| && |order| == b - a && Permutation(b - a, order)
    ensures InOrder(RunEdges(body[a..b]), order)
    ensures forall k: nat :: a <= k < b ==> out[k] == a + order[k - a]
  {
    hide Inferred, Forward, RunEdges;
    var edges, found :| StableOrder(body[a..b], edges, found) && |found| == b - a &&
                        forall k :: 0 <= k < b - a ==> out[a + k] == a + found[k];
    order := found;
    forall k: nat | a <= k < b
      ensures out[k] == a + order[k - a]
    {
      assert out[a + (k - a)] == a + order[k - a];
    }
  }

  /** The position of op i in a sorted run. */
  lemma {:induction false} PlaceInRun(body: seq<Op>, a: nat, b: nat, out: seq<nat>, i: nat) returns (k: nat)
    requires RunPlaced(body, a, b, out) && a <= i < b
    ensures a <= k < b && b <= |out| && out[k] == i
  {
    hide RunPlaced;
    var order := RunFacts(body, a, b, out);
    PermutationHolds(b - a, order, i - a);
    var j: nat :| j < |order| && order[j] == i - a;
    k := a + j;
  }

  lemma {:induction false} RunMembers(body: seq<Op>, a: nat, b: nat, out: seq<nat>, k: nat)
    requires RunPlaced(body, a, b, out) && a <= k < b
    ensures b <= |out| && a <= out[k] < b
  {
    hide RunPlaced;
    var order := RunFacts(body, a, b, out);
  }

  lemma {:induction false} RunDistinct(body: seq<Op>, a: nat, b: nat, out: seq<nat>, j: nat, k: nat)
    requires RunPlaced(body, a, b, out) && a <= j < k < b
    ensures b <= |out| && out[j] != out[k]
  {
    hide RunPlaced;
    var order := RunFacts(body, a, b, out);
    assert order[j - a] != order[k - a];
  }

  ghost predicate InOneRun(body: seq<Op>, j: nat, k: nat) {
    exists a: nat, b: nat :: IsRun(body, a, b) && a <= j < b && a <= k < b
  }

  /** A control op stays where it is, and a resource op in its run. */
  lemma {:induction false} StaysInRun(body: seq<Op>, out: seq<nat>, k: nat)
    requires SortedTo(body, out) && |out| == |body| && k < |out|
    ensures out[k] < |body|
    ensures IsControlKind(body[k].kind) ==> out[k] == k
    ensures !IsControlKind(body[k].kind) ==> InOneRun(body, k, out[k])
  {
    if !IsControlKind(body[k].kind) {
      var a, b := RunAround(body, k);
      RunMembers(body, a, b, out, k);
    }
  }

  lemma {:induction false} TwoRuns(body: seq<Op>, a: nat, b: nat, c: nat, d: nat)
    requires IsRun(body, a, b) && IsRun(body, c, d)
    ensures (a == c && b == d) || b <= c || d <= a
  {
  }

  /** The apply order of a body is a permutation of it. */
  lemma {:induction false} SortedPermutation(body: seq<Op>, out: seq<nat>)
    requires SortedTo(body, out) && |out| == |body|
    ensures Permutation(|body|, out)
  {
    forall k | 0 <= k < |out|
      ensures out[k] < |body|
    {
      StaysInRun(body, out, k);
    }
    forall j, k | 0 <= j < k < |out|
      ensures out[j] != out[k]
    {
      SortedDistinct(body, out, j, k);
    }
  }

  lemma {:induction false} SortedDistinct(body: seq<Op>, out: seq<nat>, j: nat, k: nat)
    requires SortedTo(body, out) && |out| == |body| && j < k < |out|
    ensures out[j] != out[k]
  {
    StaysInRun(body, out, j);
    StaysInRun(body, out, k);
    if !IsControlKind(body[j].kind) && !IsControlKind(body[k].kind) {
      var a: nat, b: nat :| IsRun(body, a, b) && a <= j < b && a <= out[j] < b;
      var c: nat, d: nat :| IsRun(body, c, d) && c <= k < d && c <= out[k] < d;
      RunIsPlaced(body, out, a, b);
      hide RunPlaced, SortedTo;
      TwoRuns(body, a, b, c, d);
      hide IsRun;
      if a == c {
        RunDistinct(body, a, b, out, j, k);
      }
    }
  }

  /** Where op i is placed: behind nothing but its own run. */
  lemma {:induction false} PlacedWithin(body: seq<Op>, out: seq<nat>, i: nat, limit: nat) returns (k: nat)
    requires SortedTo(body, out) && |out| == |body| && i < limit <= |body|
    requires limit < |body| ==> limit > 0 && (IsControlKind(body[limit].kind) || IsControlKind(body[limit - 1].kind))
    ensures k < limit && out[k] == i
  {
    if IsControlKind(body[i].kind) {
      k := i;
    } else {
      var a, b := RunAround(body, i);
      assert b <= limit;
      RunIsPlaced(body, out, a, b);
      k := PlaceInRun(body, a, b, out, i);
    }
  }

  /** Inside one run a dependency's carrier is placed first. */
  lemma {:induction false} RunDepFirst(body: seq<Op>, a: nat, b: nat, out: seq<nat>, k: nat, carrier: nat,
                                       d: nat) returns (j: nat)
    requires RunPlaced(body, a, b, out) && a <= k < b && a <= carrier < b && a <= out[k] < b
    requires d < |body[out[k]].deps| && body[out[k]].deps[d] == body[carrier].id != ""
    ensures a <= j < k && out[j] == carrier
  {
    hide RunPlaced, InOrder;
    var order := RunFacts(body, a, b, out);
    j := PlaceInRun(body, a, b, out, carrier);
    hide Permutation;
    var run := body[a..b];
    var q, p := order[k - a], order[j - a];
    assert run[p] == body[carrier] && run[q] == body[out[k]];
    assert WaitsFor(run, q, p);
    assert (p, q) in RunEdges(run);
    BothPlaced(RunEdges(run), order, j - a, k - a);
  }

  lemma {:induction false} BothPlaced(e: set<(nat, nat)>, order: seq<nat>, j: nat, k: nat)
    requires InOrder(e, order) && j < |order| && k < |order| && (order[j], order[k]) in e
    ensures j < k
  {
  }

  /** Within one body: a dep first carried in the body is placed before its
      dependent. */
  lemma {:induction false} BodyDepFirst(body: seq<Op>, out: seq<nat>, k: nat, d: nat) returns (j: nat)
    requires SortAccepts(body) && SortedTo(body, out) && |out| == |body| && k < |out| && out[k] < |body|
    requires !IsControlKind(body[k].kind) && d < |body[out[k]].deps|
    requires body[out[k]].deps[d] != "" && FirstIndex(body, body[out[k]].deps[d]) >= 0
    ensures j < k && out[j] < |body| && body[out[j]].id == body[out[k]].deps[d]
  {
    var dep := body[out[k]].deps[d];
    var first: nat := FirstIndex(body, dep);
    StaysInRun(body, out, k);
    hide RunPlaced, SortedTo;
    var a: nat, b: nat :| IsRun(body, a, b) && a <= k < b && a <= out[k] < b;
    assert !RunWaitsLater(body, a, b);
    assert NoneLater(body, b, body[out[k]]);
    assert !CarriedLater(body, b, dep);
    hide RunWaitsLater, SortAccepts, NoneLater, InOneRun;
    if first >= a {
      RunIsPlaced(body, out, a, b);
      j := RunDepFirst(body, a, b, out, k, first, d);
    } else {
      j := PlacedWithin(body, out, first, a);
    }
  }

  lemma {:induction false} RunIsPlaced(body: seq<Op>, out: seq<nat>, a: nat, b: nat)
    requires SortedTo(body, out) && |out| == |body| && IsRun(body, a, b)
    ensures RunPlaced(body, a, b, out)
  {
  }

  /** No control op lies between lines j and k. */
  predicate SameRun(body: seq<Op>, j: nat, k: nat) {
    j < |body| && k < |body| &&
    forall i :: 0 <= i < |body| && (j <= i <= k || k <= i <= j) ==> !IsControlKind(body[i].kind)
  }

  lemma {:induction false} SameRunInside(body: seq<Op>, a: nat, b: nat, j: nat, k: nat)
    requires IsRun(body, a, b) && a <= k < b && SameRun(body, j, k)
    ensures a <= j < b
  {
    assert a > 0 ==> IsControlKind(body[a - 1].kind);
    assert b < |body| ==> IsControlKind(body[b].kind);
  }

  /** Between two control ops an op comes after every op there that carries an
      ID it depends on. */
  lemma {:induction false} EveryCarrierFirst(body: seq<Op>, out: seq<nat>, j: nat, k: nat)
    requires SortedTo(body, out) && |out| == |body| && SameRun(body, j, k)
    requires out[j] < |body| && out[k] < |body| && out[j] != out[k]
    requires body[out[j]].id != "" && body[out[j]].id in body[out[k]].deps
    ensures j < k
  {
    var a, b := RunAround(body, k);
    SameRunInside(body, a, b, j, k);
    RunIsPlaced(body, out, a, b);
    hide SortedTo, RunPlaced, IsRun, SameRun;
    RunMembers(body, a, b, out, j);
    RunMembers(body, a, b, out, k);
    var d: nat :| d < |body[out[k]].deps| && body[out[k]].deps[d] == body[out[j]].id;
    var first := RunDepFirst(body, a, b, out, k, out[j], d);
    if first < j {
      RunDistinct(body, a, b, out, first, j);
    } else if j < first {
      RunDistinct(body, a, b, out, j, first);
    }
  }

  /** Line f lies behind op q and behind a control op. */
  predicate BehindControl(body: seq<Op>, q: nat, f: int) {
    q < f < |body| && exists c :: q < c <= f && IsControlKind(body[c].kind)
  }

  /** Some dependency of op q is first carried behind a control op after q. */
  ghost predicate WaitsBehind(body: seq<Op>, q: nat)
    requires q < |body|
  {
    exists d :: 0 <= d < |body[q].deps| && body[q].deps[d] != "" &&
                BehindControl(body, q, FirstIndex(body, body[q].deps[d]))
  }

  lemma {:induction false} LaterIff(body: seq<Op>, a: nat, b: nat, q: nat)
    requires IsRun(body, a, b) && a <= q < b
    ensures !NoneLater(body, b, body[q]) <==> WaitsBehind(body, q)
  {
    forall d | 0 <= d < |body[q].deps|
      ensures CarriedLater(body, b, body[q].deps[d]) <==>
                body[q].deps[d] != "" && BehindControl(body, q, FirstIndex(body, body[q].deps[d]))
    {
      var f := FirstIndex(body, body[q].deps[d]);
      if f >= b {
        assert IsControlKind(body[b].kind);
      }
    }
    hide CarriedLater, BehindControl, IsRun, FirstIndex;
  }

  /** What the sort accepts: no resource op has a dependency that is first
      carried behind a control op after it, and no stretch between control ops
      holds a cycle of its recorded dependencies.  A dependency carried earlier
      or nowhere is no reason to refuse. */
  lemma {:induction false} SortAcceptsMeans(body: seq<Op>)
    ensures SortAccepts(body) <==>
              (forall q :: 0 <= q < |body| && !IsControlKind(body[q].kind) ==> !WaitsBehind(body, q)) &&
              (forall a: nat, b: nat :: IsRun(body, a, b) ==> Acyclic(RunEdges(body[a..b])))
  {
    forall a: nat, b: nat, q: nat | IsRun(body, a, b) && a <= q < b
      ensures !NoneLater(body, b, body[q]) <==> WaitsBehind(body, q)
      ensures !IsControlKind(body[q].kind)
    {
      LaterIff(body, a, b, q);
    }
    hide NoneLater, WaitsBehind, RunEdges, Acyclic;
    if SortAccepts(body) {
      forall q: nat | q < |body| && !IsControlKind(body[q].kind)
        ensures !WaitsBehind(body, q)
      {
        var a, b := RunAround(body, q);
        assert !RunWaitsLater(body, a, b);
      }
    }
    hide IsRun, IsControlKind;
  }

  /** One chunk with its header, and the order its lines apply in. */
  datatype AppliedChunk = AppliedChunk(ops: seq<Op>, order: seq<nat>)

  ghost predicate ChunkSorted(c: AppliedChunk) {
    |c.ops| > 0 && |c.order| == |c.ops| - 1 && SortAccepts(c.ops[1..]) && SortedTo(c.ops[1..], c.order)
  }

  /** The ops of a chunk as they apply, header first. */
  function ApplyOrderOf(c: AppliedChunk): (applied: seq<Op>)
    requires |c.ops| > 0 && Permutation(|c.ops| - 1, c.order)
    ensures |applied| == |c.ops| && applied[0] == c.ops[0]
    ensures forall k :: 0 < k < |applied| ==> applied[k] == c.ops[c.order[k - 1] + 1]
  {
    [c.ops[0]] + Picked(c.ops[1..], c.order)
  }

  lemma {:induction false} ChunkPermutation(c: AppliedChunk)
    requires ChunkSorted(c)
    ensures Permutation(|c.ops| - 1, c.order)
  {
    SortedPermutation(c.ops[1..], c.order);
  }

  /** A chunk applies exactly its ops, control ops where they were recorded. */
  lemma {:induction false} ChunkReordered(c: AppliedChunk)
    requires ChunkSorted(c)
    ensures Permutation(|c.ops| - 1, c.order) && |ApplyOrderOf(c)| == |c.ops|
    ensures multiset(ApplyOrderOf(c)) == multiset(c.ops)
    ensures forall k :: 0 <= k < |c.ops| && IsControlKind(c.ops[k].kind) ==> ApplyOrderOf(c)[k] == c.ops[k]
  {
    ChunkPermutation(c);
    ControlsStay(c);
    hide Permutation, ChunkSorted;
    PickedMultiset(c.ops[1..], c.order);
    assert c.ops == [c.ops[0]] + c.ops[1..];
  }

  lemma {:induction false} ControlsStay(c: AppliedChunk)
    requires ChunkSorted(c) && Permutation(|c.ops| - 1, c.order)
    ensures forall k :: 0 <= k < |c.ops| && IsControlKind(c.ops[k].kind) ==> ApplyOrderOf(c)[k] == c.ops[k]
  {
    forall k | 0 < k < |c.ops| && IsControlKind(c.ops[k].kind)
      ensures ApplyOrderOf(c)[k] == c.ops[k]
    {
      StaysInRun(c.ops[1..], c.order, k - 1);
    }
  }

  function Bodies(chunks: seq<AppliedChunk>): (bodies: seq<seq<Op>>)
    ensures |bodies| == |chunks| && forall c :: 0 <= c < |chunks| ==> bodies[c] == chunks[c].ops
  {
    seq(|chunks|, c requires 0 <= c < |chunks| => chunks[c].ops)
  }

  /** Line k of chunk c carries id. */
  ghost predicate Carries(chunks: seq<AppliedChunk>, c: nat, k: nat, id: string) {
    && c < |chunks| && |chunks[c].ops| > 0 && Permutation(|chunks[c].ops| - 1, chunks[c].order)
    && k < |chunks[c].ops| && ApplyOrderOf(chunks[c])[k].id == id
  }

  /** Whatever chunk carries the ID, one of the chunk's applied lines does. */
  lemma {:induction false} CarriedSomewhere(chunks: seq<AppliedChunk>, c: nat, id: string) returns (k: nat)
    requires c < |chunks| && ChunkSorted(chunks[c]) && FirstIndex(chunks[c].ops, id) >= 0
    ensures Carries(chunks, c, k, id)
  {
    SortedSize(chunks[c]);
    ChunkPermutation(chunks[c]);
    var at := IndexCarries(chunks[c].ops, id);
    k := LineOfOp(chunks[c], at);
    hide *;
    LineCarries(chunks, c, k, id);
  }

  lemma {:induction false} IndexCarries(ops: seq<Op>, id: string) returns (at: nat)
    requires FirstIndex(ops, id) >= 0
    ensures at < |ops| && ops[at].id == id
  {
    at := FirstIndex(ops, id);
  }

  /** The line op at of a chunk applies as. */
  lemma {:induction false} LineOfOp(c: AppliedChunk, at: nat) returns (k: nat)
    requires at < |c.ops| && Permutation(|c.ops| - 1, c.order)
    ensures k < |c.ops| && ApplyOrderOf(c)[k] == c.ops[at]
  {
    if at == 0 {
      k := 0;
    } else {
      PermutationHolds(|c.ops| - 1, c.order, at - 1);
      var j: nat :| j < |c.order| && c.order[j] == at - 1;
      k := j + 1;
    }
  }

  lemma {:induction false} SortedSize(c: AppliedChunk)
    requires ChunkSorted(c)
    ensures |c.ops| > 0 && |c.order| == |c.ops| - 1
  {
  }

  lemma {:induction false} BehindHeaderFirst(ops: seq<Op>, id: string)
    requires |ops| > 0 && ops[0].id != id && FirstIndex(ops, id) >= 0
    ensures FirstIndex(ops[1..], id) >= 0
  {
    var at := FirstIndex(ops, id);
    assert ops[1..][at - 1].id == id;
  }

  /** End to end.  If the chunk check accepts the plan and every chunk sorts,
      then in the order everything applies, chunk after chunk, each resource op
      follows an op carrying each ID it depends on. */
  lemma {:induction false} DependencyFirst(chunks: seq<AppliedChunk>, c: nat, k: nat, d: nat) returns (c': nat, k': nat)
    requires DepsPlaced(Bodies(chunks)) && (forall i :: 0 <= i < |chunks| ==> ChunkSorted(chunks[i]))
    requires c < |chunks| && 0 < k < |chunks[c].ops| && !IsControlKind(chunks[c].ops[k].kind)
    requires Permutation(|chunks[c].ops| - 1, chunks[c].order) && d < |ApplyOrderOf(chunks[c])[k].deps|
    ensures Carries(chunks, c', k', ApplyOrderOf(chunks[c])[k].deps[d])
    ensures c' < c || (c' == c && k' < k)
  {
    hide ChunkSorted, DepsPlaced, SortedTo, SortAccepts, Permutation, Carries;
    var ops, order := chunks[c].ops, chunks[c].order;
    var op := ApplyOrderOf(chunks[c])[k];
    var dep := op.deps[d];
    PlacedInOrder(chunks, c, k, d);
    var f: nat := ChunkWith(Bodies(chunks), dep);
    if f < c {
      c' := f;
      k' := CarriedSomewhere(chunks, f, dep);
    } else {
      c' := c;
      k' := CarriedBefore(chunks, c, k, d);
    }
  }

  /** The chunk check places a dep in its dependent's chunk or before. */
  lemma {:induction false} PlacedInOrder(chunks: seq<AppliedChunk>, c: nat, k: nat, d: nat)
    requires DepsPlaced(Bodies(chunks)) && c < |chunks| && 0 < k < |chunks[c].ops|
    requires Permutation(|chunks[c].ops| - 1, chunks[c].order) && d < |ApplyOrderOf(chunks[c])[k].deps|
    ensures var dep := ApplyOrderOf(chunks[c])[k].deps[d];
            dep != "" && 0 <= ChunkWith(Bodies(chunks), dep) <= c &&
            FirstIndex(chunks[ChunkWith(Bodies(chunks), dep)].ops, dep) >= 0
  {
    var ops, order := chunks[c].ops, chunks[c].order;
    assert ApplyOrderOf(chunks[c])[k] == ops[order[k - 1] + 1];
    assert OpPlaced(Bodies(chunks), c, Bodies(chunks)[c][order[k - 1] + 1]);
    assert DepPlaced(Bodies(chunks), c, ApplyOrderOf(chunks[c])[k].deps[d]);
  }

  /** A dep its own chunk carries is carried by an earlier line of it. */
  lemma {:induction false} CarriedBefore(chunks: seq<AppliedChunk>, c: nat, k: nat, d: nat) returns (k': nat)
    requires c < |chunks| && ChunkSorted(chunks[c]) && 0 < k < |chunks[c].ops| && !IsControlKind(chunks[c].ops[k].kind)
    requires Permutation(|chunks[c].ops| - 1, chunks[c].order) && d < |ApplyOrderOf(chunks[c])[k].deps|
    requires ApplyOrderOf(chunks[c])[k].deps[d] != ""
    requires FirstIndex(chunks[c].ops, ApplyOrderOf(chunks[c])[k].deps[d]) >= 0
    ensures k' < k && Carries(chunks, c, k', ApplyOrderOf(chunks[c])[k].deps[d])
  {
    hide SortedTo, SortAccepts, Permutation, FirstIndex, Carries, Distinct;
    var ops, order := chunks[c].ops, chunks[c].order;
    var dep := ApplyOrderOf(chunks[c])[k].deps[d];
    if ops[0].id == dep {
      k' := 0;
    } else {
      BehindHeaderFirst(ops, dep);
      OrderInBody(chunks[c]);
      var j := BodyDepFirst(ops[1..], order, k - 1, d);
      k' := j + 1;
    }
    LineCarries(chunks, c, k', dep);
  }

  lemma {:induction false} OrderInBody(c: AppliedChunk)
    requires |c.ops| > 0 && Permutation(|c.ops| - 1, c.order)
    ensures |c.order| == |c.ops| - 1 && forall k :: 0 <= k < |c.order| ==> c.order[k] < |c.ops| - 1
  {
  }

  lemma {:induction false} LineCarries(chunks: seq<AppliedChunk>, c: nat, k: nat, id: string)
    requires c < |chunks| && k < |chunks[c].ops| && Permutation(|chunks[c].ops| - 1, chunks[c].order)
    requires ApplyOrderOf(chunks[c])[k].id == id
    ensures Carries(chunks, c, k, id)
  {
  }
}
