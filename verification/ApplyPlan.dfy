/** An Apply plan from registration order to checked chunks: the order, the
    split and the chunk checks of one flat body taken together. */
module ApplyPlan {
  import opened Walks
  import opened Levels
  import opened Ops
  import opened DepGraphs
  import opened Kahn
  import opened ChunkOrders
  import opened ApplyOrder
  import opened Splits
  import opened Requirements
  import opened ChunkChecks
  import opened PlanChecks
  import opened Scheduling

  /** A plan without when-blocks, as Apply records registered resources. */
  predicate Flat(ops: seq<Op>) {
    forall k :: 0 <= k < |ops| ==> !ops[k].kind.KindWhenBegin? && !ops[k].kind.KindWhenEnd?
  }

  lemma {:induction false} FlatPromoted(ops: seq<Op>, k: nat)
    requires Flat(ops) && k < |ops|
    ensures Promoted(ops, k) <==> ops[k].elevate
  {
    assert SameBlock(ops, |ops|, k, k);
    if Promoted(ops, k) {
      var e: nat :| e < |ops| && ops[e].elevate && SameBlock(ops, |ops|, k, e);
    }
  }

  lemma {:induction false} FlatStubs(ops: seq<Op>, n: nat)
    requires Flat(ops) && n <= |ops|
    ensures Stubs(ops, n) == []
  {
    if n > 0 {
      FlatStubs(ops, n - 1);
    }
  }

  lemma {:induction false} FlatPending(chunks: seq<Chunk>, k: nat)
    requires k <= |chunks| && forall c :: 0 <= c < |chunks| ==> Flat(chunks[c].ops)
    ensures Pending(chunks, k) == []
    decreases |chunks| - k
  {
    if k < |chunks| {
      assert Flat(chunks[k].ops);
      FlatPending(chunks, k + 1);
      FlatStubs(chunks[k].ops, |chunks[k].ops|);
    }
  }

  /** Flat chunks get no stubs. */
  lemma {:induction false} FlatHoisted(cut: seq<Chunk>, chunks: seq<Chunk>)
    requires Hoisted(cut, chunks) && forall c :: 0 <= c < |cut| ==> Flat(cut[c].ops)
    ensures chunks == cut
  {
    hide Flat, Pending, WithStubs;
    forall c | 0 <= c < |cut|
      ensures chunks[c] == cut[c]
    {
      FlatPending(cut, c + 1);
      assert chunks[c] == WithStubs(cut[c], Pending(cut, c + 1));
      WithNoStubs(cut[c]);
    }
  }

  /** Position k of the order lies in part c. */
  ghost predicate Within(bounds: seq<nat>, c: nat, k: nat) {
    c < |bounds| - 1 && bounds[c] <= k < bounds[c + 1]
  }

  lemma {:induction false} PartHolding(eff: seq<bool>, bounds: seq<nat>, limit: nat, k: nat) returns (c: nat)
    requires Cuts(eff, bounds, limit) && k < limit
    ensures Within(bounds, c, k)
    decreases |bounds|
  {
    c := |bounds| - 2;
    assert Part(eff, bounds[c], bounds[c + 1]);
    while bounds[c] > k
      invariant c < |bounds| - 1 && k < bounds[c + 1]
    {
      assert Part(eff, bounds[c - 1], bounds[c]);
      c := c - 1;
    }
  }

  lemma {:induction false} BoundsRise(eff: seq<bool>, bounds: seq<nat>, limit: nat, c: nat, d: nat)
    requires Cuts(eff, bounds, limit) && c < d < |bounds|
    ensures bounds[c] < bounds[d]
    decreases d
  {
    assert Part(eff, bounds[d - 1], bounds[d]);
    if c < d - 1 {
      BoundsRise(eff, bounds, limit, c, d - 1);
    }
  }

  /** eff lists the classes along the order. */
  ghost predicate ClassesAlong(elev: seq<bool>, order: seq<nat>, eff: seq<bool>) {
    && |eff| == |order| && (forall i :: 0 <= i < |order| ==> order[i] < |elev|)
    && (forall k :: 0 <= k < |order| ==> eff[k] == elev[order[k]])
  }

  /** The parts the split cuts are the chunks the order is counted in. */
  lemma {:induction false} PartIsChunk(elev: seq<bool>, order: seq<nat>, eff: seq<bool>, bounds: seq<nat>, c: nat,
                                       k: nat)
    requires ClassesAlong(elev, order, eff) && Cuts(eff, bounds, |eff|) && k < |order| && Within(bounds, c, k)
    ensures ChunkOf(elev, order, k) == c
    decreases k
  {
    assert Part(eff, bounds[c], bounds[c + 1]);
    if k > bounds[c] {
      PartIsChunk(elev, order, eff, bounds, c, k - 1);
      assert eff[k] == eff[bounds[c]] == eff[k - 1];
    } else if c > 0 {
      assert Part(eff, bounds[c - 1], bounds[c]);
      PartIsChunk(elev, order, eff, bounds, c - 1, k - 1);
    }
  }

  /** Chunk c of the ordered body: the header, then part c. */
  ghost predicate IsChunkBody(ordered: seq<Op>, header: Op, bounds: seq<nat>, c: nat, chunk: seq<Op>) {
    c < |bounds| - 1 && bounds[c] <= bounds[c + 1] <= |ordered| && chunk == [header] + ordered[bounds[c]..bounds[c + 1]]
  }

  /** The chunk bodies of an ordered flat body. */
  ghost predicate ChunkBodies(body: seq<Op>, order: seq<nat>, header: Op, eff: seq<bool>, bounds: seq<nat>,
                              bodies: seq<seq<Op>>) {
    && ClassesAlong(Classes(body), order, eff) && Cuts(eff, bounds, |eff|) && |bodies| == |bounds| - 1
    && forall c :: 0 <= c < |bodies| ==> IsChunkBody(Picked(body, order), header, bounds, c, bodies[c])
  }

  /** Line k of the order is line 1 + k - bounds[c] of its chunk. */
  lemma {:induction false} LineInChunk(body: seq<Op>, order: seq<nat>, header: Op, eff: seq<bool>, bounds: seq<nat>,
                                       bodies: seq<seq<Op>>, c: nat, k: nat)
    requires ChunkBodies(body, order, header, eff, bounds, bodies) && Within(bounds, c, k)
    ensures c < |bodies| && k < |order| && order[k] < |body| && 1 + k - bounds[c] < |bodies[c]|
    ensures bodies[c][1 + k - bounds[c]] == body[order[k]] && ChunkOf(Classes(body), order, k) == c
  {
    assert IsChunkBody(Picked(body, order), header, bounds, c, bodies[c]);
    PartIsChunk(Classes(body), order, eff, bounds, c, k);
  }

  /** The other way round: what is a line of chunk c. */
  lemma {:induction false} ChunkLine(body: seq<Op>, order: seq<nat>, header: Op, eff: seq<bool>, bounds: seq<nat>,
                                     bodies: seq<seq<Op>>, c: nat, n: nat)
    requires ChunkBodies(body, order, header, eff, bounds, bodies) && c < |bodies| && n < |bodies[c]|
    ensures n == 0 ==> bodies[c][n] == header
    ensures n > 0 ==>
              Within(bounds, c, bounds[c] + n - 1) && bounds[c] + n - 1 < |order| &&
                bodies[c][n] == body[order[bounds[c] + n - 1]]
  {
    assert IsChunkBody(Picked(body, order), header, bounds, c, bodies[c]);
    assert n > 0 ==> bodies[c][n] == Picked(body, order)[bounds[c] + n - 1];
  }

  predicate UniqueIds(body: seq<Op>) {
    forall i, j :: 0 <= i < j < |body| && body[i].id != "" ==> body[i].id != body[j].id
  }

  /** An ID of the body is first carried by the chunk its op lies in. */
  lemma {:induction false} ChunkOfId(body: seq<Op>, order: seq<nat>, header: Op, eff: seq<bool>, bounds: seq<nat>,
                                     bodies: seq<seq<Op>>, k: nat)
    requires ChunkBodies(body, order, header, eff, bounds, bodies) && UniqueIds(body) && Permutation(|body|, order)
    requires k < |order| && body[order[k]].id != "" && body[order[k]].id != header.id
    ensures ChunkWith(bodies, body[order[k]].id) == ChunkOf(Classes(body), order, k)
  {
    var id := body[order[k]].id;
    var c := PartHolding(eff, bounds, |eff|, k);
    LineInChunk(body, order, header, eff, bounds, bodies, c, k);
    assert FirstIndex(bodies[c], id) >= 0;
    var d := FirstWith(bodies, id);
    if d >= 0 {
      var n: nat := FirstIndex(bodies[d], id);
      ChunkLine(body, order, header, eff, bounds, bodies, d, n);
      var j: nat := bounds[d] + n - 1;
      assert body[order[j]].id == id;
      assert order[j] == order[k];
      assert j == k;
      LineInChunk(body, order, header, eff, bounds, bodies, d, j);
    }
  }

  lemma {:induction false} DanglingId(body: seq<Op>, order: seq<nat>, header: Op, eff: seq<bool>, bounds: seq<nat>,
                                      bodies: seq<seq<Op>>, id: string)
    requires ChunkBodies(body, order, header, eff, bounds, bodies) && FirstIndex(body, id) < 0 && id != header.id
    ensures ChunkWith(bodies, id) < 0
  {
    var d := FirstWith(bodies, id);
    if d >= 0 {
      var n: nat := FirstIndex(bodies[d], id);
      ChunkLine(body, order, header, eff, bounds, bodies, d, n);
    }
  }

  /** Every gate watches something, and nothing that is not there. */
  predicate GatesNamed(body: seq<Op>) {
    forall i :: 0 <= i < |body| && body[i].ifChanged ==>
      body[i].watch != [] && forall w :: 0 <= w < |body[i].watch| ==>
        body[i].watch[w] != "" && FirstIndex(body, body[i].watch[w]) >= 0
  }

  predicate DepsNamed(body: seq<Op>) {
    forall i :: 0 <= i < |body| ==>
      forall d :: 0 <= d < |body[i].deps| ==> body[i].deps[d] != "" && FirstIndex(body, body[i].deps[d]) >= 0
  }

  /** The header is nobody's dependency or watch and has none, nor a guard. */
  predicate PlainHeader(header: Op, body: seq<Op>) {
    && !header.ifChanged && header.deps == [] && header.all == []
    && forall i :: 0 <= i < |body| ==> header.id !in body[i].watch && header.id !in body[i].deps
  }

  /** A watch is local exactly when it names an op of the same chunk. */
  lemma {:induction false} WatchLocalIff(body: seq<Op>, order: seq<nat>, header: Op, eff: seq<bool>, bounds: seq<nat>,
                                         bodies: seq<seq<Op>>, k: nat, id: string)
    requires ChunkBodies(body, order, header, eff, bounds, bodies) && UniqueIds(body) && Permutation(|body|, order)
    requires k < |order| && id != header.id
    ensures WatchLocal(bodies, ChunkOf(Classes(body), order, k), id) <==>
            id != "" && FirstIndex(body, id) >= 0 &&
            forall j :: 0 <= j < |order| && order[j] == FirstIndex(body, id) ==>
              ChunkOf(Classes(body), order, j) == ChunkOf(Classes(body), order, k)
  {
    var at := FirstIndex(body, id);
    if at < 0 {
      DanglingId(body, order, header, eff, bounds, bodies, id);
    } else if id != "" {
      PermutationHolds(|body|, order, at);
      var j: nat :| j < |order| && order[j] == at;
      ChunkOfId(body, order, header, eff, bounds, bodies, j);
      hide ChunkBodies;
      assert forall i :: 0 <= i < |order| && order[i] == at ==> i == j;
    }
  }

  /** The gate of the op at position k, as the chunk check sees it. */
  lemma {:induction false} GateLocalIff(body: seq<Op>, order: seq<nat>, header: Op, eff: seq<bool>, bounds: seq<nat>,
                                        bodies: seq<seq<Op>>, k: nat)
    requires ChunkBodies(body, order, header, eff, bounds, bodies) && UniqueIds(body) && Permutation(|body|, order)
    requires k < |order| && PlainHeader(header, body) && GatesNamed(body)
    ensures GateLocal(bodies, ChunkOf(Classes(body), order, k), body[order[k]]) <==>
            forall j :: 0 <= j < |order| && WatchesOp(body, order[k], order[j]) ==>
              ChunkOf(Classes(body), order, j) == ChunkOf(Classes(body), order, k)
  {
    var op, c := body[order[k]], ChunkOf(Classes(body), order, k);
    forall w | 0 <= w < |op.watch|
      ensures op.ifChanged ==> (WatchLocal(bodies, c, op.watch[w]) <==>
                forall j :: 0 <= j < |order| && order[j] == FirstIndex(body, op.watch[w]) ==>
                  ChunkOf(Classes(body), order, j) == c)
    {
      assert op.watch[w] in op.watch;
      WatchLocalIff(body, order, header, eff, bounds, bodies, k, op.watch[w]);
    }
  }

  lemma {:induction false} NamedIfLocal(body: seq<Op>, order: seq<nat>, header: Op, eff: seq<bool>, bounds: seq<nat>,
                                        bodies: seq<seq<Op>>)
    requires ChunkBodies(body, order, header, eff, bounds, bodies) && Permutation(|body|, order)
    requires PlainHeader(header, body) && GatesLocal(bodies)
    ensures GatesNamed(body)
  {
    forall i: nat | i < |body| && body[i].ifChanged
      ensures body[i].watch != []
      ensures forall w :: 0 <= w < |body[i].watch| ==> body[i].watch[w] != "" && FirstIndex(body, body[i].watch[w]) >= 0
    {
      PermutationHolds(|body|, order, i);
      var k: nat :| k < |order| && order[k] == i;
      var c := PartHolding(eff, bounds, |eff|, k);
      LineInChunk(body, order, header, eff, bounds, bodies, c, k);
      assert GateLocal(bodies, c, bodies[c][1 + k - bounds[c]]);
      forall w | 0 <= w < |body[i].watch|
        ensures body[i].watch[w] != "" && FirstIndex(body, body[i].watch[w]) >= 0
      {
        assert WatchLocal(bodies, c, body[i].watch[w]) && body[i].watch[w] in body[i].watch;
        if FirstIndex(body, body[i].watch[w]) < 0 {
          DanglingId(body, order, header, eff, bounds, bodies, body[i].watch[w]);
        }
      }
    }
  }

  /** The change-gate check accepts an ordered flat plan exactly when nothing
      is missing and every watch shares a chunk with its gated op. */
  lemma {:induction false} GatesLocalIff(body: seq<Op>, order: seq<nat>, header: Op, eff: seq<bool>, bounds: seq<nat>,
                                         bodies: seq<seq<Op>>)
    requires ChunkBodies(body, order, header, eff, bounds, bodies) && UniqueIds(body) && Permutation(|body|, order)
    requires PlainHeader(header, body)
    ensures GatesLocal(bodies) <==> GatesNamed(body) && ShareChunks(Classes(body), AllWatches(body), order)
  {
    if GatesLocal(bodies) {
      NamedIfLocal(body, order, header, eff, bounds, bodies);
      LocalShares(body, order, header, eff, bounds, bodies);
    } else if GatesNamed(body) && ShareChunks(Classes(body), AllWatches(body), order) {
      SharedLocal(body, order, header, eff, bounds, bodies);
    }
  }

  lemma {:induction false} LocalShares(body: seq<Op>, order: seq<nat>, header: Op, eff: seq<bool>, bounds: seq<nat>,
                                       bodies: seq<seq<Op>>)
    requires ChunkBodies(body, order, header, eff, bounds, bodies) && UniqueIds(body) && Permutation(|body|, order)
    requires PlainHeader(header, body) && GatesNamed(body) && GatesLocal(bodies)
    ensures ShareChunks(Classes(body), AllWatches(body), order)
  {
    forall k, j | 0 <= k < |order| && 0 <= j < |order| && WatchPair(order[k], order[j]) in AllWatches(body)
      ensures ChunkOf(Classes(body), order, k) == ChunkOf(Classes(body), order, j)
    {
      var c := PartHolding(eff, bounds, |eff|, k);
      LineInChunk(body, order, header, eff, bounds, bodies, c, k);
      assert GateLocal(bodies, c, bodies[c][1 + k - bounds[c]]);
      GateLocalIff(body, order, header, eff, bounds, bodies, k);
      assert WatchesOp(body, order[k], order[j]);
    }
  }

  lemma {:induction false} SharedLocal(body: seq<Op>, order: seq<nat>, header: Op, eff: seq<bool>, bounds: seq<nat>,
                                       bodies: seq<seq<Op>>)
    requires ChunkBodies(body, order, header, eff, bounds, bodies) && UniqueIds(body) && Permutation(|body|, order)
    requires PlainHeader(header, body) && GatesNamed(body) && ShareChunks(Classes(body), AllWatches(body), order)
    ensures GatesLocal(bodies)
  {
    forall c, n | 0 <= c < |bodies| && 0 <= n < |bodies[c]|
      ensures GateLocal(bodies, c, bodies[c][n])
    {
      ChunkLine(body, order, header, eff, bounds, bodies, c, n);
      if n > 0 {
        var k: nat := bounds[c] + n - 1;
        LineInChunk(body, order, header, eff, bounds, bodies, c, k);
        GateLocalIff(body, order, header, eff, bounds, bodies, k);
        forall j | 0 <= j < |order| && WatchesOp(body, order[k], order[j])
          ensures ChunkOf(Classes(body), order, j) == ChunkOf(Classes(body), order, k)
        {
          assert WatchPair(order[k], order[j]) in AllWatches(body);
        }
      }
    }
  }

  /** A dependency of the op at position k, as the chunk check sees it. */
  lemma {:induction false} DepPlacedIff(body: seq<Op>, order: seq<nat>, header: Op, eff: seq<bool>, bounds: seq<nat>,
                                        bodies: seq<seq<Op>>, k: nat, d: nat)
    requires ChunkBodies(body, order, header, eff, bounds, bodies) && UniqueIds(body) && Permutation(|body|, order)
    requires k < |order| && PlainHeader(header, body) && InOrder(BodyDeps(body), order) && d < |body[order[k]].deps|
    ensures DepPlaced(bodies, ChunkOf(Classes(body), order, k), body[order[k]].deps[d]) <==>
            body[order[k]].deps[d] != "" && FirstIndex(body, body[order[k]].deps[d]) >= 0
  {
    var id := body[order[k]].deps[d];
    assert id in body[order[k]].deps;
    var at := FirstIndex(body, id);
    if at < 0 {
      DanglingId(body, order, header, eff, bounds, bodies, id);
    } else if id != "" {
      PermutationHolds(|body|, order, at);
      var j: nat :| j < |order| && order[j] == at;
      ChunkOfId(body, order, header, eff, bounds, bodies, j);
      assert DependsOn(body, order[k], order[j]);
      assert (order[j], order[k]) in BodyDeps(body);
      hide ChunkBodies;
      ChunksRise(Classes(body), order, j, k);
    }
  }

  /** The dependency check accepts an ordered flat plan exactly when no
      dependency is missing. */
  lemma {:induction false} DepsPlacedIff(body: seq<Op>, order: seq<nat>, header: Op, eff: seq<bool>, bounds: seq<nat>,
                                         bodies: seq<seq<Op>>)
    requires ChunkBodies(body, order, header, eff, bounds, bodies) && UniqueIds(body) && Permutation(|body|, order)
    requires PlainHeader(header, body) && InOrder(BodyDeps(body), order)
    ensures DepsPlaced(bodies) <==> DepsNamed(body)
    ensures forall c, n, d :: 0 <= c < |bodies| && 0 <= n < |bodies[c]| && 0 <= d < |bodies[c][n].deps| ==>
              ChunkWith(bodies, bodies[c][n].deps[d]) <= c
  {
    forall c, n, d | 0 <= c < |bodies| && 0 <= n < |bodies[c]| && 0 <= d < |bodies[c][n].deps|
      ensures DepPlaced(bodies, c, bodies[c][n].deps[d]) <==>
                bodies[c][n].deps[d] != "" && FirstIndex(body, bodies[c][n].deps[d]) >= 0
      ensures ChunkWith(bodies, bodies[c][n].deps[d]) <= c
    {
      LineDep(body, order, header, eff, bounds, bodies, c, n, d);
    }
    hide ChunkBodies, BodyDeps, InOrder;
    if DepsPlaced(bodies) {
      NamedIfPlaced(body, order, header, eff, bounds, bodies);
    } else if DepsNamed(body) {
      PlacedIfNamed(body, order, header, eff, bounds, bodies);
    }
  }

  lemma {:induction false} LineDep(body: seq<Op>, order: seq<nat>, header: Op, eff: seq<bool>, bounds: seq<nat>,
                                   bodies: seq<seq<Op>>, c: nat, n: nat, d: nat)
    requires ChunkBodies(body, order, header, eff, bounds, bodies) && UniqueIds(body) && Permutation(|body|, order)
    requires PlainHeader(header, body) && InOrder(BodyDeps(body), order)
    requires c < |bodies| && n < |bodies[c]| && d < |bodies[c][n].deps|
    ensures n > 0 && bounds[c] + n - 1 < |order| && order[bounds[c] + n - 1] < |body|
    ensures bodies[c][n] == body[order[bounds[c] + n - 1]]
    ensures DepPlaced(bodies, c, bodies[c][n].deps[d]) <==>
              bodies[c][n].deps[d] != "" && FirstIndex(body, bodies[c][n].deps[d]) >= 0
    ensures ChunkWith(bodies, bodies[c][n].deps[d]) <= c
  {
    hide ChunkBodies, UniqueIds, Permutation, InOrder, BodyDeps, ChunkOf;
    ChunkLine(body, order, header, eff, bounds, bodies, c, n);
    var k: nat := bounds[c] + n - 1;
    LineInChunk(body, order, header, eff, bounds, bodies, c, k);
    DepPlacedIff(body, order, header, eff, bounds, bodies, k, d);
    if FirstIndex(body, bodies[c][n].deps[d]) < 0 {
      assert bodies[c][n].deps[d] in body[order[k]].deps;
      DanglingId(body, order, header, eff, bounds, bodies, bodies[c][n].deps[d]);
    }
  }

  lemma {:induction false} NamedIfPlaced(body: seq<Op>, order: seq<nat>, header: Op, eff: seq<bool>, bounds: seq<nat>,
                                         bodies: seq<seq<Op>>)
    requires ChunkBodies(body, order, header, eff, bounds, bodies) && UniqueIds(body) && Permutation(|body|, order)
    requires PlainHeader(header, body) && InOrder(BodyDeps(body), order) && DepsPlaced(bodies)
    ensures DepsNamed(body)
  {
    forall i: nat, d: nat | i < |body| && d < |body[i].deps|
      ensures body[i].deps[d] != "" && FirstIndex(body, body[i].deps[d]) >= 0
    {
      PermutationHolds(|body|, order, i);
      var k: nat :| k < |order| && order[k] == i;
      var c := PartHolding(eff, bounds, |eff|, k);
      LineInChunk(body, order, header, eff, bounds, bodies, c, k);
      assert OpPlaced(bodies, c, bodies[c][1 + k - bounds[c]]);
      DepPlacedIff(body, order, header, eff, bounds, bodies, k, d);
      assert DepPlaced(bodies, c, body[i].deps[d]);
    }
  }

  lemma {:induction false} PlacedIfNamed(body: seq<Op>, order: seq<nat>, header: Op, eff: seq<bool>, bounds: seq<nat>,
                                         bodies: seq<seq<Op>>)
    requires ChunkBodies(body, order, header, eff, bounds, bodies) && UniqueIds(body) && Permutation(|body|, order)
    requires PlainHeader(header, body) && InOrder(BodyDeps(body), order) && DepsNamed(body)
    ensures DepsPlaced(bodies)
  {
    forall c, n | 0 <= c < |bodies| && 0 <= n < |bodies[c]|
      ensures OpPlaced(bodies, c, bodies[c][n])
    {
      forall d | 0 <= d < |bodies[c][n].deps|
        ensures DepPlaced(bodies, c, bodies[c][n].deps[d])
      {
        LineDep(body, order, header, eff, bounds, bodies, c, n, d);
      }
    }
  }

  /** As many chunks as the order is counted to have. */
  lemma {:induction false} ChunkNumber(body: seq<Op>, order: seq<nat>, header: Op, eff: seq<bool>, bounds: seq<nat>,
                                       bodies: seq<seq<Op>>)
    requires ChunkBodies(body, order, header, eff, bounds, bodies) && |order| > 0
    ensures |bodies| == ChunkTotal(Classes(body), order)
  {
    var c := |bounds| - 2;
    if c >= 0 {
      assert Part(eff, bounds[c], bounds[c + 1]);
      PartIsChunk(Classes(body), order, eff, bounds, c, |order| - 1);
    }
  }

  /** What the split makes of an ordered flat body. */
  lemma {:induction false} SplitBodies(body: seq<Op>, order: seq<nat>, header: Op, eff: seq<bool>, bounds: seq<nat>,
                                       cut: seq<Chunk>, chunks: seq<Chunk>)
    requires Permutation(|body|, order) && Flat(body) && header.kind.KindPlan?
    requires |eff| == |order| && forall k: nat :: k < |eff| ==> (eff[k] <==> Promoted(Picked(body, order), k))
    requires Cuts(eff, bounds, |eff|) && CutInto(Picked(body, order), header, eff, bounds, cut) && Hoisted(cut, chunks)
    ensures ChunkBodies(body, order, header, eff, bounds, OpsOf(chunks)) && chunks == cut
  {
    var ordered := Picked(body, order);
    hide *;
    FlatClasses(body, order, eff);
    FlatChunks(ordered, header, eff, bounds, cut);
    FlatHoisted(cut, chunks);
    CutBodies(body, order, header, eff, bounds, cut);
  }

  lemma {:induction false} FlatClasses(body: seq<Op>, order: seq<nat>, eff: seq<bool>)
    requires Permutation(|body|, order) && Flat(body)
    requires |eff| == |order| && forall k: nat :: k < |eff| ==> (eff[k] <==> Promoted(Picked(body, order), k))
    ensures ClassesAlong(Classes(body), order, eff) && Flat(Picked(body, order)) && |Picked(body, order)| == |order|
  {
    forall k: nat | k < |order|
      ensures eff[k] == Classes(body)[order[k]]
    {
      FlatPromoted(Picked(body, order), k);
    }
  }

  lemma {:induction false} FlatChunks(ordered: seq<Op>, header: Op, eff: seq<bool>, bounds: seq<nat>, cut: seq<Chunk>)
    requires Flat(ordered) && header.kind.KindPlan? && |eff| == |ordered| && CutInto(ordered, header, eff, bounds, cut)
    ensures forall c :: 0 <= c < |cut| ==> Flat(cut[c].ops)
  {
    hide Flat;
    forall c | 0 <= c < |cut|
      ensures Flat(cut[c].ops)
    {
      assert cut[c] == Chunk(eff[bounds[c]], [header] + PartOf(ordered, bounds, c));
      FlatPart(ordered, header, bounds[c], bounds[c + 1]);
    }
  }

  lemma {:induction false} FlatPart(ops: seq<Op>, header: Op, a: nat, b: nat)
    requires Flat(ops) && header.kind.KindPlan? && a <= b <= |ops|
    ensures Flat([header] + ops[a..b])
  {
  }

  lemma {:induction false} CutBodies(body: seq<Op>, order: seq<nat>, header: Op, eff: seq<bool>, bounds: seq<nat>,
                                     cut: seq<Chunk>)
    requires ClassesAlong(Classes(body), order, eff) && Cuts(eff, bounds, |eff|)
    requires CutInto(Picked(body, order), header, eff, bounds, cut)
    ensures ChunkBodies(body, order, header, eff, bounds, OpsOf(cut))
  {
    hide Cuts;
    forall c | 0 <= c < |cut|
      ensures IsChunkBody(Picked(body, order), header, bounds, c, cut[c].ops)
    {
      assert Part(eff, bounds[c], bounds[c + 1]);
      assert cut[c] == Chunk(eff[bounds[c]], [header] + PartOf(Picked(body, order), bounds, c));
    }
  }

  datatype Prepared =
    | Prepared(chunks: seq<Chunk>)
    | RefusedCycle(loop: Option<seq<nat>>)
    | RefusedChunks(verdict: Verdict)

  /** A plan as Apply hands it over: a header nobody names in front of a flat
      body with unique IDs. */
  predicate RegisteredPlan(ops: seq<Op>) {
    && |ops| >= 2 && ops[0].kind.KindPlan? && Flat(ops[1..]) && UniqueIds(ops[1..])
    && PlainHeader(ChunkHeader(ops[0]), ops[1..])
  }

  /** No op by itself breaks a rule. */
  predicate OpsOk(body: seq<Op>) {
    forall i :: 0 <= i < |body| ==> NegationOk(body[i]) && ServiceOk(body[i])
  }

  /** The order-then-split part of applyElevatedOps with the pre-flight over
      the chunks.  It refuses exactly the plans no order could save: ops that
      break a rule by themselves, circular or missing dependencies, gates
      without a watch or with a missing one, and watches no
      dependency-respecting order brings into the gated op's chunk.
      Otherwise the chunks are the body in the scheduled order, cut where the
      class changes, and no order the schedule's rules allow has fewer. */
  method PrepareElevated(ops: seq<Op>)
    returns (r: Prepared, ghost s: Schedule, ghost eff: seq<bool>, ghost bounds: seq<nat>)
    requires RegisteredPlan(ops)
    ensures r.RefusedCycle? <==> !Acyclic(BodyDeps(ops[1..]))
    ensures r.RefusedCycle? ==> r.loop.Some? && DepLoop(BodyDeps(ops[1..]), r.loop.value)
    ensures r.RefusedChunks? ==> !r.verdict.ChunksOk? && !r.verdict.BadRequirement?
    ensures r.RefusedChunks? && (r.verdict.BadNegation? || r.verdict.BadService?) <==>
              Acyclic(BodyDeps(ops[1..])) && !OpsOk(ops[1..])
    ensures r.RefusedChunks? && r.verdict.BadDep? <==>
              Acyclic(BodyDeps(ops[1..])) && OpsOk(ops[1..]) && !DepsNamed(ops[1..])
    ensures r.RefusedChunks? && r.verdict.BadDep? ==> r.verdict.reason.DanglingDep?
    ensures r.Prepared? <==>
              && Acyclic(BodyDeps(ops[1..])) && OpsOk(ops[1..]) && DepsNamed(ops[1..]) && GatesNamed(ops[1..])
              && exists order :: GoodOrder(ops[1..], order)
    ensures r.Prepared? ==> exists conflicts :: Scheduled(ops[1..], s, conflicts)
    ensures r.Prepared? ==>
              && ClassesAlong(Classes(ops[1..]), s.order, eff) && Cuts(eff, bounds, |eff|)
              && CutInto(Picked(ops[1..], s.order), ChunkHeader(ops[0]), eff, bounds, r.chunks)
    ensures r.Prepared? ==> forall order :: ValidOrder(Rules(ops[1..], s), order) ==>
              |r.chunks| <= ChunkTotal(Classes(ops[1..]), order)
  {
    hide OpsOk, NegationsOk, ServicesOk, AllScopesOk, VerdictTells;
    hide Acyclic, BodyDeps, DepLoop, Scheduled, DepsNamed, GatesNamed, GoodOrder, ClassesAlong, PlainHeader,
         Flat, UniqueIds, Cuts, CutInto, Hoisted, ChunkBodies, Promoted, Permutation, ValidOrder, DepsPlaced,
         GatesLocal, FirstMisplaced, FirstGate, FirstWatch;
    ghost var body := ops[1..];
    var ordered;
    ordered, s := OrderForPrivilegeSplit(ops);
    if ordered.Circular? {
      ScheduleAcyclic(body, s);
      return RefusedCycle(ordered.loop), s, [], [];
    }
    ScheduleFacts(body, s, ordered.conflicts);
    var chunks;
    ghost var cut;
    assert ordered.ops[1..] == Picked(body, s.order);
    chunks, eff, bounds, cut := SplitPrivilegeChunks(ordered.ops);
    SplitBodies(body, s.order, ChunkHeader(ops[0]), eff, bounds, cut, chunks);
    var bodies := OpsOf(chunks);
    DepsPlacedIff(body, s.order, ChunkHeader(ops[0]), eff, bounds, bodies);
    GatesLocalIff(body, s.order, ChunkHeader(ops[0]), eff, bounds, bodies);
    ChunkClasses(body, s.order, ChunkHeader(ops[0]), eff, bounds, bodies);
    ChunkNumber(body, s.order, ChunkHeader(ops[0]), eff, bounds, bodies);
    ScheduleIsGoodIfAnyIs(body, s, ordered.conflicts);
    GoodIfShared(body, s, ordered.conflicts);
    OpsOkIff(body, s.order, ChunkHeader(ops[0]), eff, bounds, bodies);
    var verdict := ValidateChunks(chunks);
    AcceptedIff(bodies, verdict);
    FlatVerdict(bodies, verdict);
    if verdict != ChunksOk {
      return RefusedChunks(verdict), s, eff, bounds;
    }
    r := Prepared(chunks);
  }

  /** The chunks break an op rule exactly when the body does. */
  lemma {:induction false} OpsOkIff(body: seq<Op>, order: seq<nat>, header: Op, eff: seq<bool>, bounds: seq<nat>,
                                    bodies: seq<seq<Op>>)
    requires ChunkBodies(body, order, header, eff, bounds, bodies) && Permutation(|body|, order)
    requires PlainHeader(header, body) && header.kind.KindPlan? && Flat(body)
    ensures NegationsOk(bodies) && ServicesOk(bodies) <==> OpsOk(body)
    ensures AllScopesOk(bodies)
  {
    HeaderOk(header, body);
    hide ChunkBodies, NegationOk, ServiceOk, Flat, PlainHeader;
    if OpsOk(body) {
      forall c, n | 0 <= c < |bodies| && 0 <= n < |bodies[c]|
        ensures NegationOk(bodies[c][n]) && ServiceOk(bodies[c][n])
      {
        ChunkLine(body, order, header, eff, bounds, bodies, c, n);
      }
    }
    if NegationsOk(bodies) && ServicesOk(bodies) {
      forall i | 0 <= i < |body|
        ensures NegationOk(body[i]) && ServiceOk(body[i])
      {
        PermutationHolds(|body|, order, i);
        var k: nat :| k < |order| && order[k] == i;
        var c := PartOfLine(body, order, header, eff, bounds, bodies, k);
        LineInChunk(body, order, header, eff, bounds, bodies, c, k);
        assert NegationOk(bodies[c][1 + k - bounds[c]]) && ServiceOk(bodies[c][1 + k - bounds[c]]);
      }
    }
    forall c | 0 <= c < |bodies|
      ensures ScopesOk(bodies[c])
    {
      forall n | 0 <= n < |bodies[c]|
        ensures !IsRequirement(bodies[c][n])
      {
        ChunkLine(body, order, header, eff, bounds, bodies, c, n);
        FlatLine(body, header, bodies[c][n], n, if n > 0 then order[bounds[c] + n - 1] else 0);
      }
    }
  }

  lemma {:induction false} FlatLine(body: seq<Op>, header: Op, op: Op, n: nat, i: nat)
    requires Flat(body) && header.kind.KindPlan? && (if n == 0 then op == header else i < |body| && op == body[i])
    ensures !IsRequirement(op)
  {
  }

  lemma {:induction false} HeaderOk(header: Op, body: seq<Op>)
    requires PlainHeader(header, body) && header.kind.KindPlan?
    ensures NegationOk(header) && ServiceOk(header)
  {
  }

  lemma {:induction false} PartOfLine(body: seq<Op>, order: seq<nat>, header: Op, eff: seq<bool>, bounds: seq<nat>,
                                      bodies: seq<seq<Op>>, k: nat) returns (c: nat)
    requires ChunkBodies(body, order, header, eff, bounds, bodies) && k < |order|
    ensures Within(bounds, c, k)
  {
    hide Cuts, Part;
    c := PartHolding(eff, bounds, |eff|, k);
  }

  /** A dependency refusal is never a forward one, as every dependency lies in
      its dependent's chunk or before it, and there are no requirements. */
  lemma {:induction false} FlatVerdict(bodies: seq<seq<Op>>, v: Verdict)
    requires VerdictTells(bodies, v) && AllScopesOk(bodies)
    requires forall c, n, d :: 0 <= c < |bodies| && 0 <= n < |bodies[c]| && 0 <= d < |bodies[c][n].deps| ==>
              ChunkWith(bodies, bodies[c][n].deps[d]) <= c
    ensures !v.BadRequirement? && (v.BadDep? ==> v.reason.DanglingDep?)
  {
    hide NegationsOk, ServicesOk, DepsPlaced, GatesLocal, FirstMisplaced, ChunkWith, Chain;
    MisplacedInRange(bodies);
  }

  lemma {:induction false} MisplacedInRange(bodies: seq<seq<Op>>)
    ensures forall c: nat, k: nat, d: nat :: FirstMisplaced(bodies, c, k, d) ==>
              c < |bodies| && k < |bodies[c]| && d < |bodies[c][k].deps|
  {
  }

  lemma {:induction false} ChunkClasses(body: seq<Op>, order: seq<nat>, header: Op, eff: seq<bool>, bounds: seq<nat>,
                                        bodies: seq<seq<Op>>)
    requires ChunkBodies(body, order, header, eff, bounds, bodies)
    ensures ClassesAlong(Classes(body), order, eff) && Cuts(eff, bounds, |eff|)
  {
    hide ClassesAlong, Cuts, IsChunkBody;
  }

  lemma {:induction false} ScheduleAcyclic(body: seq<Op>, s: Schedule)
    ensures forall conflicts :: Scheduled(body, s, conflicts) ==> Acyclic(BodyDeps(body))
  {
  }

  lemma {:induction false} ScheduleFacts(body: seq<Op>, s: Schedule, conflicts: map<WatchPair, seq<WatchPair>>)
    requires Scheduled(body, s, conflicts)
    ensures Acyclic(BodyDeps(body)) && Permutation(|body|, s.order) && |s.order| == |body|
    ensures forall i :: 0 <= i < |s.order| ==> s.order[i] < |body|
    ensures InOrder(BodyDeps(body), s.order)
    ensures forall order :: ValidOrder(Rules(body, s), order) ==>
              ChunkTotal(Classes(body), s.order) <= ChunkTotal(Classes(body), order)
  {
    assert FewestChunks(Rules(body, s), s.order);
  }

  lemma {:induction false} GoodIfShared(body: seq<Op>, s: Schedule, conflicts: map<WatchPair, seq<WatchPair>>)
    requires Scheduled(body, s, conflicts) && Permutation(|body|, s.order)
    ensures GoodOrder(body, s.order) <==> ShareChunks(Classes(body), AllWatches(body), s.order)
  {
    ScheduleFacts(body, s, conflicts);
  }
}
