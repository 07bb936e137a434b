/** The whole-plan checks over privilege chunks: ValidateChunkDeps and
    ValidateChangeGates of plan/split.go. */
module ChunkChecks {
  import opened Ops
  import opened DepGraphs

  /** The first chunk that carries id, or -1. */
  function FirstWith(bodies: seq<seq<Op>>, id: string): (at: int)
    ensures -1 <= at < |bodies|
    ensures at >= 0 ==> FirstIndex(bodies[at], id) >= 0 && forall c :: 0 <= c < at ==> FirstIndex(bodies[c], id) < 0
    ensures at < 0 ==> forall c :: 0 <= c < |bodies| ==> FirstIndex(bodies[c], id) < 0
  {
    if bodies == [] then -1
    else
      var rest := bodies[..|bodies| - 1];
      var at := FirstWith(rest, id);
      assert forall c :: 0 <= c < |rest| ==> rest[c] == bodies[c];
      if at >= 0 then at else if FirstIndex(bodies[|bodies| - 1], id) >= 0 then |bodies| - 1 else -1
  }

  /** Where chunk-level checks look an ID up: no op carries the empty one. */
  function ChunkWith(bodies: seq<seq<Op>>, id: string): (at: int)
    ensures at < |bodies|
  {
    if id == "" then -1 else FirstWith(bodies, id)
  }

  ghost predicate IndexesChunks(firstChunk: map<string, nat>, bodies: seq<seq<Op>>) {
    forall id ::
      if ChunkWith(bodies, id) >= 0 then id in firstChunk && firstChunk[id] == ChunkWith(bodies, id)
      else id !in firstChunk
  }

  /** The first n ops of chunk c are indexed on top of the chunks before c. */
  ghost predicate IndexesPart(firstChunk: map<string, nat>, bodies: seq<seq<Op>>, c: nat, n: nat)
    requires c < |bodies| && n <= |bodies[c]|
  {
    forall id ::
      if ChunkWith(bodies[..c], id) >= 0 then id in firstChunk && firstChunk[id] == ChunkWith(bodies[..c], id)
      else if id != "" && FirstIndex(bodies[c][..n], id) >= 0 then id in firstChunk && firstChunk[id] == c
      else id !in firstChunk
  }

  /** firstChunkOf. */
  method FirstChunkOf(bodies: seq<seq<Op>>) returns (firstChunk: map<string, nat>)
    ensures IndexesChunks(firstChunk, bodies)
  {
    firstChunk := map[];
    for c := 0 to |bodies|
      invariant IndexesChunks(firstChunk, bodies[..c])
    {
      for k := 0 to |bodies[c]|
        invariant IndexesPart(firstChunk, bodies, c, k)
      {
        assert bodies[c][..k + 1][..k] == bodies[c][..k];
        var id := bodies[c][k].id;
        if id != "" && id !in firstChunk {
          firstChunk := firstChunk[id := c];
        }
      }
      assert bodies[c][..|bodies[c]|] == bodies[c];
      assert bodies[..c + 1][..c] == bodies[..c];
    }
    assert bodies[..|bodies|] == bodies;
  }

  /** Why a chunk list is refused, with the chunk, the op in it and the index
      into the op's list. */
  datatype Refusal =
    | Accepted
    | DanglingDep(chunk: nat, op: nat, at: nat)
    | ForwardDep(chunk: nat, op: nat, at: nat)
    | NoWatch(chunk: nat, op: nat)
    | DanglingWatch(chunk: nat, op: nat, at: nat)
    | CrossChunkWatch(chunk: nat, op: nat, at: nat)

  /** A dependency is carried by its dependent's chunk or an earlier one. */
  predicate DepPlaced(bodies: seq<seq<Op>>, c: nat, id: string) {
    0 <= ChunkWith(bodies, id) <= c
  }

  predicate OpPlaced(bodies: seq<seq<Op>>, c: nat, op: Op) {
    forall d :: 0 <= d < |op.deps| ==> DepPlaced(bodies, c, op.deps[d])
  }

  predicate DepsPlaced(bodies: seq<seq<Op>>) {
    forall c, k :: 0 <= c < |bodies| && 0 <= k < |bodies[c]| ==> OpPlaced(bodies, c, bodies[c][k])
  }

  /** The dependencies of all ops before (c, k) are in place. */
  ghost predicate PlacedBefore(bodies: seq<seq<Op>>, c: nat, k: nat) {
    forall c', k' :: 0 <= c' < |bodies| && 0 <= k' < |bodies[c']| && (c' < c || (c' == c && k' < k)) ==>
      OpPlaced(bodies, c', bodies[c'][k'])
  }

  /** The refusal names the first dependency that is out of place. */
  ghost predicate FirstMisplaced(bodies: seq<seq<Op>>, c: nat, k: nat, d: nat) {
    && c < |bodies| && k < |bodies[c]| && d < |bodies[c][k].deps|
    && PlacedBefore(bodies, c, k)
    && forall e :: 0 <= e < d ==> DepPlaced(bodies, c, bodies[c][k].deps[e])
  }

  lemma {:induction false} PlacedNext(bodies: seq<seq<Op>>, c: nat, k: nat)
    requires c < |bodies| && k < |bodies[c]| && PlacedBefore(bodies, c, k) && OpPlaced(bodies, c, bodies[c][k])
    ensures PlacedBefore(bodies, c, k + 1)
  {
  }

  lemma {:induction false} PlacedEnds(bodies: seq<seq<Op>>)
    ensures PlacedBefore(bodies, 0, 0)
    ensures PlacedBefore(bodies, |bodies|, 0) ==> DepsPlaced(bodies)
    ensures forall c :: 0 <= c < |bodies| && PlacedBefore(bodies, c, |bodies[c]|) ==> PlacedBefore(bodies, c + 1, 0)
  {
  }

  lemma {:induction false} NotPlaced(bodies: seq<seq<Op>>, c: nat, k: nat)
    requires c < |bodies| && k < |bodies[c]| && !OpPlaced(bodies, c, bodies[c][k])
    ensures !DepsPlaced(bodies)
  {
  }

  /** ValidateChunkDeps. */
  method ValidateChunkDeps(bodies: seq<seq<Op>>) returns (r: Refusal)
    ensures r.Accepted? || r.DanglingDep? || r.ForwardDep?
    ensures r.Accepted? <==> DepsPlaced(bodies)
    ensures r.DanglingDep? || r.ForwardDep? ==> FirstMisplaced(bodies, r.chunk, r.op, r.at)
    ensures r.DanglingDep? ==> ChunkWith(bodies, bodies[r.chunk][r.op].deps[r.at]) < 0
    ensures r.ForwardDep? ==> ChunkWith(bodies, bodies[r.chunk][r.op].deps[r.at]) > r.chunk
  {
    hide PlacedBefore, DepsPlaced, ChunkWith;
    PlacedEnds(bodies);
    var firstChunk := FirstChunkOf(bodies);
    for c := 0 to |bodies|
      invariant PlacedBefore(bodies, c, 0)
    {
      for k := 0 to |bodies[c]|
        invariant PlacedBefore(bodies, c, k)
      {
        var op := bodies[c][k];
        for d := 0 to |op.deps|
          invariant forall e :: 0 <= e < d ==> DepPlaced(bodies, c, op.deps[e])
        {
          if op.deps[d] !in firstChunk {
            NotPlaced(bodies, c, k);
            return DanglingDep(c, k, d);
          }
          if firstChunk[op.deps[d]] > c {
            NotPlaced(bodies, c, k);
            return ForwardDep(c, k, d);
          }
        }
        PlacedNext(bodies, c, k);
      }
    }
    r := Accepted;
  }

  /** A watch is carried first by the gated op's own chunk. */
  predicate WatchLocal(bodies: seq<seq<Op>>, c: nat, id: string) {
    ChunkWith(bodies, id) == c
  }

  predicate GateLocal(bodies: seq<seq<Op>>, c: nat, op: Op) {
    op.ifChanged ==> op.watch != [] && forall w :: 0 <= w < |op.watch| ==> WatchLocal(bodies, c, op.watch[w])
  }

  predicate GatesLocal(bodies: seq<seq<Op>>) {
    forall c, k :: 0 <= c < |bodies| && 0 <= k < |bodies[c]| ==> GateLocal(bodies, c, bodies[c][k])
  }

  ghost predicate LocalBefore(bodies: seq<seq<Op>>, c: nat, k: nat) {
    forall c', k' :: 0 <= c' < |bodies| && 0 <= k' < |bodies[c']| && (c' < c || (c' == c && k' < k)) ==>
      GateLocal(bodies, c', bodies[c'][k'])
  }

  /** The refusal names the first gate that is out of place. */
  ghost predicate FirstGate(bodies: seq<seq<Op>>, c: nat, k: nat) {
    c < |bodies| && k < |bodies[c]| && bodies[c][k].ifChanged && LocalBefore(bodies, c, k)
  }

  ghost predicate FirstWatch(bodies: seq<seq<Op>>, c: nat, k: nat, w: nat) {
    && FirstGate(bodies, c, k) && w < |bodies[c][k].watch|
    && forall e :: 0 <= e < w ==> WatchLocal(bodies, c, bodies[c][k].watch[e])
  }

  lemma {:induction false} LocalNext(bodies: seq<seq<Op>>, c: nat, k: nat)
    requires c < |bodies| && k < |bodies[c]| && LocalBefore(bodies, c, k) && GateLocal(bodies, c, bodies[c][k])
    ensures LocalBefore(bodies, c, k + 1)
  {
  }

  lemma {:induction false} LocalEnds(bodies: seq<seq<Op>>)
    ensures LocalBefore(bodies, 0, 0)
    ensures LocalBefore(bodies, |bodies|, 0) ==> GatesLocal(bodies)
    ensures forall c :: 0 <= c < |bodies| && LocalBefore(bodies, c, |bodies[c]|) ==> LocalBefore(bodies, c + 1, 0)
  {
  }

  lemma {:induction false} NotLocal(bodies: seq<seq<Op>>, c: nat, k: nat)
    requires c < |bodies| && k < |bodies[c]| && !GateLocal(bodies, c, bodies[c][k])
    ensures !GatesLocal(bodies)
  {
  }

  /** ValidateChangeGates. */
  method ValidateChangeGates(bodies: seq<seq<Op>>) returns (r: Refusal)
    ensures r.Accepted? || r.NoWatch? || r.DanglingWatch? || r.CrossChunkWatch?
    ensures r.Accepted? <==> GatesLocal(bodies)
    ensures r.NoWatch? ==> FirstGate(bodies, r.chunk, r.op) && bodies[r.chunk][r.op].watch == []
    ensures r.DanglingWatch? || r.CrossChunkWatch? ==> FirstWatch(bodies, r.chunk, r.op, r.at)
    ensures r.DanglingWatch? ==> ChunkWith(bodies, bodies[r.chunk][r.op].watch[r.at]) < 0
    ensures r.CrossChunkWatch? ==> 0 <= ChunkWith(bodies, bodies[r.chunk][r.op].watch[r.at]) != r.chunk
  {
    hide LocalBefore, GatesLocal, ChunkWith;
    LocalEnds(bodies);
    var firstChunk := FirstChunkOf(bodies);
    for c := 0 to |bodies|
      invariant LocalBefore(bodies, c, 0)
    {
      for k := 0 to |bodies[c]|
        invariant LocalBefore(bodies, c, k)
      {
        var op := bodies[c][k];
        if !op.ifChanged {
          LocalNext(bodies, c, k);
          continue;
        }
        if |op.watch| == 0 {
          NotLocal(bodies, c, k);
          return NoWatch(c, k);
        }
        for w := 0 to |op.watch|
          invariant forall e :: 0 <= e < w ==> WatchLocal(bodies, c, op.watch[e])
        {
          if op.watch[w] !in firstChunk {
            NotLocal(bodies, c, k);
            return DanglingWatch(c, k, w);
          }
          if firstChunk[op.watch[w]] != c {
            NotLocal(bodies, c, k);
            return CrossChunkWatch(c, k, w);
          }
        }
        LocalNext(bodies, c, k);
      }
    }
    r := Accepted;
  }
}
