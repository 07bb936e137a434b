/** What applying the chunks of a plan does as a whole: each chunk as the split
    returns it, with its header and its stubs, sorted or not. */
module ChunkMeaning {
  import opened Ops
  import opened Blocks
  import opened Enclosing
  import opened Guards
  import opened Interpreter
  import opened Splits
  import opened Requirements
  import opened SplitMeaning
  import opened AllOrNothing
  import opened Kahn
  import opened ChunkOrders
  import opened ApplySort
  import opened EndToEnd
  import opened SortMeaning

  /** The chunks SplitPrivilegeChunks returns for a plan with a balanced body. */
  ghost predicate SplitOf(ops: seq<Op>, chunks: seq<Chunk>, eff: seq<bool>, bounds: seq<nat>, cut: seq<Chunk>) {
    && BodyOf(ops) != [] && CutBody(BodyOf(ops), eff, bounds)
    && CutInto(BodyOf(ops), ChunkHeader(HeaderOf(ops)), eff, bounds, cut) && Hoisted(cut, chunks)
  }

  /** What SplitPrivilegeChunks makes of a balanced body is such a split. */
  lemma {:induction false} SplitReturns(ops: seq<Op>, chunks: seq<Chunk>, eff: seq<bool>, bounds: seq<nat>,
                                        cut: seq<Chunk>)
    requires IsSplit(ops, chunks, eff, bounds, cut) && BodyOf(ops) != [] && Balanced(BodyOf(ops))
    ensures SplitOf(ops, chunks, eff, bounds, cut)
  {
    hide Balanced, Promoted, Cuts, CutInto, Hoisted;
  }

  /** A plan is split in one way only. */
  lemma {:induction false} OneSplit(ops: seq<Op>, chunks: seq<Chunk>, eff: seq<bool>, bounds: seq<nat>,
                                    cut: seq<Chunk>, chunks': seq<Chunk>, eff': seq<bool>, bounds': seq<nat>,
                                    cut': seq<Chunk>)
    requires IsSplit(ops, chunks, eff, bounds, cut) && IsSplit(ops, chunks', eff', bounds', cut')
    ensures chunks == chunks'
  {
    hide Promoted, Cuts, Part, Pending, WithStubs, PartOf;
    if BodyOf(ops) != [] {
      assert eff == eff';
      OneCutting(eff, bounds, bounds');
      assert cut == cut';
    }
  }

  lemma {:induction false} OneCutting(eff: seq<bool>, bounds: seq<nat>, bounds': seq<nat>)
    requires Cuts(eff, bounds, |eff|) && Cuts(eff, bounds', |eff|)
    ensures bounds == bounds'
  {
    hide Part;
    var c: nat := 0;
    while c + 1 < |bounds| && c + 1 < |bounds'|
      invariant c < |bounds| && c < |bounds'| && forall d :: 0 <= d <= c ==> bounds[d] == bounds'[d]
    {
      NextCut(eff, bounds, bounds', c);
      c := c + 1;
    }
    if c + 1 == |bounds| {
      LastCut(eff, bounds', c);
    } else {
      LastCut(eff, bounds, c);
    }
  }

  /** A part ends where the class next changes. */
  lemma {:induction false} NextCut(eff: seq<bool>, bounds: seq<nat>, bounds': seq<nat>, c: nat)
    requires Cuts(eff, bounds, |eff|) && Cuts(eff, bounds', |eff|) && c + 1 < |bounds| && c + 1 < |bounds'|
    requires bounds[c] == bounds'[c]
    ensures bounds[c + 1] == bounds'[c + 1]
  {
    CutChanges(eff, bounds, c + 1);
    CutChanges(eff, bounds', c + 1);
    assert Part(eff, bounds[c], bounds[c + 1]) && Part(eff, bounds'[c], bounds'[c + 1]);
    hide Cuts;
  }

  lemma {:induction false} CutChanges(eff: seq<bool>, bounds: seq<nat>, c: nat)
    requires Cuts(eff, bounds, |eff|) && 0 < c < |bounds|
    ensures 0 < bounds[c] <= |eff| && (bounds[c] < |eff| ==> eff[bounds[c]] != eff[bounds[c] - 1])
  {
    assert Part(eff, bounds[c - 1], bounds[c]);
    if c + 1 < |bounds| {
      assert Part(eff, bounds[c], bounds[c + 1]);
    }
  }

  /** Line i opens a block that line j closes. */
  ghost predicate Block(ops: seq<Op>, i: nat, j: nat) {
    j < |ops| && ops[j].kind.KindWhenEnd? && Encloses(ops, i, j) && Net(ops, i + 1, j) == 0
  }

  /** Which ops run elevated, by counting when_begins and when_ends: those that
      ask for it, and all of a closed block in which some op does. */
  lemma {:induction false} PromotedMeans(ops: seq<Op>, k: nat)
    requires k < |ops|
    ensures Promoted(ops, k) <==>
              ops[k].elevate ||
              exists e: nat, i: nat, j: nat ::
                e < |ops| && ops[e].elevate && Block(ops, i, j) && i <= k <= j && i <= e <= j
  {
    forall i: nat, j: nat
      ensures Matched(ops, i, j) <==> Block(ops, i, j)
    {
      MatchedIff(ops, i, j);
    }
    hide Matched, Block;
    if e: nat :| e < |ops| && ops[e].elevate && SameBlock(ops, |ops|, k, e) && k != e {
      var i: nat, j: nat :| Matched(ops, i, j) && j < |ops| && i <= k <= j && i <= e <= j;
      assert Block(ops, i, j);
    }
    if ops[k].elevate {
      assert SameBlock(ops, |ops|, k, k);
    }
    if e: nat, i: nat, j: nat :| e < |ops| && ops[e].elevate && Block(ops, i, j) && i <= k <= j && i <= e <= j {
      BlockEnds(ops, i, j);
      assert Matched(ops, i, j);
      assert SameBlock(ops, |ops|, k, e);
    }
  }

  lemma {:induction false} BlockEnds(ops: seq<Op>, i: nat, j: nat)
    requires Block(ops, i, j)
    ensures j < |ops|
  {
  }

  /** The number of stub lines of chunk c. */
  ghost function StubCount(cut: seq<Chunk>, c: nat): nat
    requires c < |cut|
  {
    |Pending(cut, c + 1)|
  }

  /** A returned chunk: the header, the stubs of the later chunks, its part. */
  lemma {:induction false} ReturnedChunk(ops: seq<Op>, chunks: seq<Chunk>, eff: seq<bool>, bounds: seq<nat>,
                                         cut: seq<Chunk>, c: nat)
    requires SplitOf(ops, chunks, eff, bounds, cut) && c < |chunks|
    ensures |cut| == |chunks| == |bounds| - 1 && bounds[c] < bounds[c + 1] <= |BodyOf(ops)|
    ensures OpenBefore(BodyOf(ops), bounds[c]) == [] && OpenBefore(BodyOf(ops), bounds[c + 1]) == []
    ensures var part := BodyOf(ops)[bounds[c]..bounds[c + 1]];
            && chunks[c] == Chunk(eff[bounds[c]], [ChunkHeader(HeaderOf(ops))] + Pending(cut, c + 1) + part)
            && StubsFirst(chunks[c].ops[1..], StubCount(cut, c)) && chunks[c].ops[1..][StubCount(cut, c)..] == part
  {
    PartBounds(BodyOf(ops), eff, bounds, c);
    hide CutBody, Pending, OpenBefore, StubsFirst;
    HoistedLines(cut, chunks, c);
    LineParts(cut, c);
    assert cut[c] == Chunk(eff[bounds[c]], [ChunkHeader(HeaderOf(ops))] + PartOf(BodyOf(ops), bounds, c));
    assert chunks[c] == WithStubs(cut[c], Pending(cut, c + 1));
  }

  /** The lines of a returned chunk: the plan's own header (with an ID if it had
      none), the stubs of the later chunks, and the plan's lines from bounds[c]
      to bounds[c + 1] counted behind the header; a plan without a header gets a
      bare one. */
  lemma {:induction false} ChunkLines(ops: seq<Op>, chunks: seq<Chunk>, eff: seq<bool>, bounds: seq<nat>,
                                      cut: seq<Chunk>, c: nat)
    requires SplitOf(ops, chunks, eff, bounds, cut) && c < |chunks|
    ensures ops != [] && |cut| == |chunks| == |bounds| - 1 && bounds[0] == 0
    ensures var behind := if ops[0].kind.KindPlan? then 1 else 0;
            && bounds[|bounds| - 1] == |ops| - behind && bounds[c] < bounds[c + 1] <= |ops| - behind
            && chunks[c].ops != []
            && chunks[c].ops[1..] == Pending(cut, c + 1) + ops[behind + bounds[c]..behind + bounds[c + 1]]
    ensures HeadsChunk(ops, chunks[c].ops[0])
  {
    hide *;
    ReturnedChunk(ops, chunks, eff, bounds, cut, c);
    SplitCuts(ops, chunks, eff, bounds, cut);
    CutEnd(BodyOf(ops), eff, bounds);
    BoundsOf(ops, chunks, eff, bounds, cut);
    HeaderMeans(ops);
    BodyMeans(ops, bounds[c], bounds[c + 1]);
    var lines := chunks[c].ops;
    assert lines[0] == ChunkHeader(HeaderOf(ops));
    assert lines[1..] == Pending(cut, c + 1) + BodyOf(ops)[bounds[c]..bounds[c + 1]];
  }

  /** h is the plan's header, given an ID if it has none, or a bare header. */
  predicate HeadsChunk(ops: seq<Op>, h: Op)
    requires ops != []
  {
    if ops[0].kind.KindPlan? then h == if ops[0].id == "" then ops[0].(id := "chunk") else ops[0]
    else
      && h.kind.KindPlan? && h.id == "chunk" && !h.elevate && h.deps == [] && !h.ifChanged && h.watch == []
      && h.all == [] && h.require == "" && !h.absent && h.path == None && h.members == []
  }

  lemma {:induction false} HeaderMeans(ops: seq<Op>)
    ensures BodyOf(ops) != [] ==> ops != []
    ensures ops != [] ==> HeadsChunk(ops, ChunkHeader(HeaderOf(ops)))
  {
  }

  lemma {:induction false} BodyMeans(ops: seq<Op>, a: nat, b: nat)
    requires a <= b <= |BodyOf(ops)| && ops != []
    ensures var behind := if ops[0].kind.KindPlan? then 1 else 0;
            |BodyOf(ops)| == |ops| - behind && BodyOf(ops)[a..b] == ops[behind + a..behind + b]
  {
  }

  lemma {:induction false} ReturnedCloses(ops: seq<Op>, chunks: seq<Chunk>, eff: seq<bool>, bounds: seq<nat>,
                                          cut: seq<Chunk>, c: nat)
    requires SplitOf(ops, chunks, eff, bounds, cut) && c < |chunks|
    ensures |chunks[c].ops| > 0 && c < |cut| && StubCount(cut, c) <= |chunks[c].ops[1..]|
    ensures OpenBefore(chunks[c].ops[1..], StubCount(cut, c)) == []
    ensures OpenBefore(chunks[c].ops[1..], |chunks[c].ops[1..]|) == []
  {
    ReturnedChunk(ops, chunks, eff, bounds, cut, c);
    hide *;
    LinesClose(chunks[c].ops[1..], StubCount(cut, c), BodyOf(ops), bounds[c], bounds[c + 1]);
  }

  /** Stub lines and a stretch of the body leave nothing open. */
  lemma {:induction false} LinesClose(lines: seq<Op>, a: nat, body: seq<Op>, s: nat, e: nat)
    requires StubsFirst(lines, a) && s <= e <= |body| && a <= |lines| && lines[a..] == body[s..e]
    requires OpenBefore(body, s) == [] && OpenBefore(body, e) == []
    ensures OpenBefore(lines, a) == [] && OpenBefore(lines, |lines|) == []
  {
    hide *;
    var n := |lines|;
    assert lines[a..n] == lines[a..] && n - a == e - s;
    StubsFirstOpen(lines, a, a);
    OpenInPart(lines, a, n, n - a);
    OpenInPart(body, s, e, e - s);
    assert a + (n - a) == n && s + (e - s) == e;
  }

  /** One chunk applied: the moments of its check and of its lines, and what
      came of it. */
  datatype ChunkRun = ChunkRun(before: seq<Moment>, during: seq<Moment>, applied: seq<nat>, end: End)

  /** The check accepted the chunk, which then applied in recorded order. */
  ghost predicate RunOf(chunk: Chunk, facts: Facts, run: ChunkRun) {
    && |chunk.ops| > 0 && |run.before| == |run.during| == |chunk.ops| - 1
    && Checks(chunk.ops[1..], facts, run.before, CheckOk)
    && Applies(chunk.ops[1..], facts, run.during, run.applied, run.end)
  }

  /** The lines of part c meet the moments the body's lines have in world. */
  ghost predicate SameMoments(world: seq<Moment>, bounds: seq<nat>, cut: seq<Chunk>, c: nat, during: seq<Moment>) {
    && c < |cut| && c + 1 < |bounds| && bounds[c] <= bounds[c + 1] <= |world| && StubCount(cut, c) <= |during|
    && during[StubCount(cut, c)..] == world[bounds[c]..bounds[c + 1]]
  }

  /** Every apply has an outcome. */
  lemma {:induction false} SomeOutcome(ops: seq<Op>, facts: Facts, world: seq<Moment>)
    returns (applied: seq<nat>, end: End)
    requires |ops| == |world|
    ensures Applies(ops, facts, world, applied, end)
  {
    hide LineEnd, Executed, OpenBefore;
    var k: nat := 0;
    while k < |ops| && LineEnd(ops, facts, world, k) == Finished
      invariant k <= |ops| && Runs(ops, facts, world, k)
    {
      k := k + 1;
    }
    applied := Executed(ops, facts, world, k);
    if k < |ops| {
      end := LineEnd(ops, facts, world, k);
      LineEndHere(ops, facts, world, k);
    } else {
      end := if OpenBefore(ops, |ops|) == [] then Finished else Unclosed;
    }
  }

  /** A returned chunk whose stubs are not cancelled does what its part does. */
  lemma {:induction false} ChunkRunsPart(ops: seq<Op>, chunks: seq<Chunk>, eff: seq<bool>, bounds: seq<nat>,
                                         cut: seq<Chunk>, c: nat, facts: Facts, world: seq<Moment>, run: ChunkRun)
    returns (applied: seq<nat>, end: End)
    requires SplitOf(ops, chunks, eff, bounds, cut) && c < |chunks| == |cut| && |world| == |BodyOf(ops)|
    requires RunOf(chunks[c], facts, run) && SameMoments(world, bounds, cut, c, run.during)
    requires NotCancelled(run.during, StubCount(cut, c))
    ensures PartApplies(BodyOf(ops), facts, world, bounds, c, applied, end) && c < |cut|
    ensures run.applied == Shifted(applied, StubCount(cut, c)) && run.end == ShiftEnd(end, StubCount(cut, c))
  {
    ReturnedChunk(ops, chunks, eff, bounds, cut, c);
    ReturnedCloses(ops, chunks, eff, bounds, cut, c);
    hide SplitOf, StubsFirst, OpenBefore, Pending, StubCount, Applies, Checks, NotCancelled, ShiftEnd;
    var lines, a := chunks[c].ops[1..], StubCount(cut, c);
    applied, end := SomeOutcome(lines[a..], facts, run.during[a..]);
    StubsInert(lines, a, facts, run.before, run.during, applied, end);
    OneOutcome(lines, facts, run.during, run.applied, run.end, Shifted(applied, a), ShiftEnd(end, a));
  }

  lemma {:induction false} ShiftFinished(end: End, a: nat)
    ensures ShiftEnd(end, a) == Finished <==> end == Finished
  {
  }

  /** Chunk d was checked and applied, not cancelled on a stub line, with the
      moments of its part. */
  ghost predicate RanOn(chunks: seq<Chunk>, bounds: seq<nat>, cut: seq<Chunk>, facts: Facts, world: seq<Moment>,
                        runs: seq<ChunkRun>, d: nat) {
    && d < |runs| && d < |chunks| == |cut| && RunOf(chunks[d], facts, runs[d])
    && SameMoments(world, bounds, cut, d, runs[d].during) && NotCancelled(runs[d].during, StubCount(cut, d))
  }

  /** The first c chunks, all of which finished. */
  lemma {:induction false} ChunksRunParts(ops: seq<Op>, chunks: seq<Chunk>, eff: seq<bool>, bounds: seq<nat>,
                                          cut: seq<Chunk>, c: nat, facts: Facts, world: seq<Moment>,
                                          runs: seq<ChunkRun>)
    returns (parts: seq<seq<nat>>)
    requires SplitOf(ops, chunks, eff, bounds, cut) && c <= |runs| <= |chunks| == |cut| && |world| == |BodyOf(ops)|
    requires forall d: nat :: d < c ==> RanOn(chunks, bounds, cut, facts, world, runs, d)
    requires forall d :: 0 <= d < c ==> runs[d].end == Finished
    ensures |parts| == c
    ensures forall d :: 0 <= d < c ==> PartApplies(BodyOf(ops), facts, world, bounds, d, parts[d], Finished)
    ensures forall d :: 0 <= d < c ==> runs[d].applied == Shifted(parts[d], StubCount(cut, d))
  {
    hide *;
    parts := [];
    var d: nat := 0;
    while d < c
      invariant d <= c && |parts| == d
      invariant forall e :: 0 <= e < d ==> PartApplies(BodyOf(ops), facts, world, bounds, e, parts[e], Finished)
      invariant forall e :: 0 <= e < d ==> runs[e].applied == Shifted(parts[e], StubCount(cut, e))
    {
      var applied, end := LastRun(ops, chunks, eff, bounds, cut, d, facts, world, runs);
      parts := parts + [applied];
      d := d + 1;
    }
  }

  /** Applied in order, the chunks the split returns do what the plan body
      would do unsplit.  Once their checks accepted and with the same moments
      line by line, the body runs the ops the chunks ran, in that order, and
      ends where the first chunk that does not finish ends, for the same
      reason; it finishes if all of them do. */
  lemma {:induction false} ChunksRunSame(ops: seq<Op>, chunks: seq<Chunk>, eff: seq<bool>, bounds: seq<nat>,
                                         cut: seq<Chunk>, c: nat, facts: Facts, world: seq<Moment>, runs: seq<ChunkRun>)
    returns (parts: seq<seq<nat>>, end: End)
    requires SplitOf(ops, chunks, eff, bounds, cut) && c < |runs| == |chunks| == |cut| && |world| == |BodyOf(ops)|
    requires forall d: nat :: d <= c ==> RanOn(chunks, bounds, cut, facts, world, runs, d)
    requires forall d :: 0 <= d < c ==> runs[d].end == Finished
    requires runs[c].end == Finished ==> c == |chunks| - 1
    ensures |parts| == c + 1 < |bounds|
    ensures Applies(BodyOf(ops), facts, world, PartsApplied(bounds, parts, c + 1), ShiftEnd(end, bounds[c]))
    ensures forall d :: 0 <= d <= c ==> runs[d].applied == Shifted(parts[d], StubCount(cut, d))
    ensures runs[c].end == ShiftEnd(end, StubCount(cut, c))
  {
    hide *;
    ReturnedChunk(ops, chunks, eff, bounds, cut, c);
    SplitCuts(ops, chunks, eff, bounds, cut);
    var first := ChunksRunParts(ops, chunks, eff, bounds, cut, c, facts, world, runs);
    var last;
    last, end := LastRun(ops, chunks, eff, bounds, cut, c, facts, world, runs);
    PartsJoin(BodyOf(ops), eff, bounds, c, facts, world, first, last, end);
    parts := first + [last];
  }

  lemma {:induction false} LastRun(ops: seq<Op>, chunks: seq<Chunk>, eff: seq<bool>, bounds: seq<nat>, cut: seq<Chunk>,
                                   c: nat, facts: Facts, world: seq<Moment>, runs: seq<ChunkRun>)
    returns (applied: seq<nat>, end: End)
    requires SplitOf(ops, chunks, eff, bounds, cut) && |world| == |BodyOf(ops)|
    requires RanOn(chunks, bounds, cut, facts, world, runs, c)
    ensures c < |runs| && c < |cut|
    ensures PartApplies(BodyOf(ops), facts, world, bounds, c, applied, end)
    ensures runs[c].applied == Shifted(applied, StubCount(cut, c)) && runs[c].end == ShiftEnd(end, StubCount(cut, c))
    ensures runs[c].end == Finished <==> end == Finished
  {
    hide SplitOf, RunOf, SameMoments, NotCancelled, PartApplies, StubCount, Shifted, ShiftEnd;
    applied, end := ChunkRunsPart(ops, chunks, eff, bounds, cut, c, facts, world, runs[c]);
    ShiftFinished(end, StubCount(cut, c));
  }

  lemma {:induction false} PartsJoin(body: seq<Op>, eff: seq<bool>, bounds: seq<nat>, c: nat, facts: Facts,
                                     world: seq<Moment>, parts: seq<seq<nat>>, last: seq<nat>, end: End)
    requires CutBody(body, eff, bounds) && |world| == |body| && |parts| == c < |bounds| - 1
    requires forall d :: 0 <= d < c ==> PartApplies(body, facts, world, bounds, d, parts[d], Finished)
    requires PartApplies(body, facts, world, bounds, c, last, end) && (end == Finished ==> c == |bounds| - 2)
    ensures Applies(body, facts, world, PartsApplied(bounds, parts + [last], c + 1), ShiftEnd(end, bounds[c]))
  {
    hide *;
    SplitPreservesMeaning(body, eff, bounds, facts, world, parts + [last], c, end);
  }

  lemma {:induction false} SplitCuts(ops: seq<Op>, chunks: seq<Chunk>, eff: seq<bool>, bounds: seq<nat>,
                                     cut: seq<Chunk>)
    requires SplitOf(ops, chunks, eff, bounds, cut)
    ensures CutBody(BodyOf(ops), eff, bounds)
  {
    hide CutBody;
  }

  /** The line of the body that line k of a sorted chunk is. */
  ghost function Origin(bounds: seq<nat>, cut: seq<Chunk>, c: nat, out: seq<nat>, k: nat): int
    requires c < |cut| && c < |bounds| && k < |out|
  {
    bounds[c] + out[k] - StubCount(cut, c)
  }

  /** Line k of the sorted chunk c runs op i of the body, or skips it. */
  ghost predicate LineOf(body: seq<Op>, facts: Facts, world: seq<Moment>, lines: seq<Op>, out: seq<nat>,
                         during: seq<Moment>, k: nat, i: int)
    requires |lines| == |during| && |body| == |world|
  {
    && Reordered(lines, out) && |Picked(lines, out)| == |lines| && k < |lines| && 0 <= i < |body|
    && Picked(lines, out)[k] == body[i] && !IsControlKind(body[i].kind)
    && (Active(Picked(lines, out), facts, during, k) <==> Active(body, facts, world, i))
  }

  /** A resource line of a sorted chunk is an op of its part, and is skipped
      there exactly when the unsplit, unsorted body skips that op. */
  lemma {:induction false} SortedLineRuns(ops: seq<Op>, chunks: seq<Chunk>, eff: seq<bool>, bounds: seq<nat>,
                                          cut: seq<Chunk>, c: nat, facts: Facts, world: seq<Moment>,
                                          during: seq<Moment>, out: seq<nat>, k: nat)
    requires SplitOf(ops, chunks, eff, bounds, cut) && c < |chunks| == |cut| && |world| == |BodyOf(ops)|
    requires SameMoments(world, bounds, cut, c, during) && |chunks[c].ops| > 0 && |during| == |chunks[c].ops| - 1
    requires Reordered(chunks[c].ops[1..], out) && k < |out| && !IsControlKind(chunks[c].ops[1..][k].kind)
    ensures c + 1 < |bounds| && bounds[c] <= Origin(bounds, cut, c, out, k) < bounds[c + 1]
    ensures LineOf(BodyOf(ops), facts, world, chunks[c].ops[1..], out, during, k, Origin(bounds, cut, c, out, k))
  {
    hide *;
    ReturnedChunk(ops, chunks, eff, bounds, cut, c);
    ReturnedCloses(ops, chunks, eff, bounds, cut, c);
    OriginIs(bounds, cut, c, out, k);
    MomentsAre(world, bounds, cut, c, during);
    SortedLine(chunks[c].ops[1..], StubCount(cut, c), BodyOf(ops), bounds[c], bounds[c + 1], facts, world, during, out,
               k);
  }

  lemma {:induction false} MomentsAre(world: seq<Moment>, bounds: seq<nat>, cut: seq<Chunk>, c: nat,
                                      during: seq<Moment>)
    requires SameMoments(world, bounds, cut, c, during)
    ensures c < |cut| && c + 1 < |bounds| && bounds[c] <= bounds[c + 1] <= |world| && StubCount(cut, c) <= |during|
    ensures during[StubCount(cut, c)..] == world[bounds[c]..bounds[c + 1]]
  {
  }

  lemma {:induction false} OriginIs(bounds: seq<nat>, cut: seq<Chunk>, c: nat, out: seq<nat>, k: nat)
    requires c < |cut| && c < |bounds| && k < |out|
    ensures Origin(bounds, cut, c, out, k) == bounds[c] + out[k] - StubCount(cut, c)
  {
  }

  /** The same for stub lines followed by any stretch of the body. */
  lemma {:induction false} SortedLine(lines: seq<Op>, a: nat, body: seq<Op>, s: nat, e: nat, facts: Facts,
                                      world: seq<Moment>, during: seq<Moment>, out: seq<nat>, k: nat)
    requires StubsFirst(lines, a) && s <= e <= |body| == |world| && a <= |lines| == |during| && lines[a..] == body[s..e]
    requires OpenBefore(body, s) == [] && OpenBefore(lines, a) == [] && during[a..] == world[s..e]
    requires Reordered(lines, out) && k < |out| && (k < |lines| ==> !IsControlKind(lines[k].kind))
    ensures s <= s + out[k] - a < e
    ensures LineOf(body, facts, world, lines, out, during, k, s + out[k] - a)
  {
    hide *;
    OutInRange(lines, out);
    NotAStub(lines, a, out, k);
    SortRunsSameOps(lines, out, facts, during, k);
    SameStretch(lines, a, body, s, e, facts, world, during, out[k] - a);
    LineIs(body, facts, world, lines, out, during, k, s + out[k] - a);
  }

  lemma {:induction false} LineIs(body: seq<Op>, facts: Facts, world: seq<Moment>, lines: seq<Op>, out: seq<nat>,
                                  during: seq<Moment>, k: nat, i: nat)
    requires |lines| == |during| && |body| == |world| && Reordered(lines, out) && k < |lines| && i < |body|
    requires out[k] < |lines| && lines[out[k]] == body[i] && !IsControlKind(lines[out[k]].kind)
    requires |Picked(lines, out)| == |lines|
    requires Active(lines, facts, during, out[k]) <==> Active(body, facts, world, i)
    requires Active(Picked(lines, out), facts, during, k) <==> Active(lines, facts, during, out[k])
    ensures LineOf(body, facts, world, lines, out, during, k, i)
  {
    OutInRange(lines, out);
    hide Active, IsControlKind, SortedTo, Permutation;
  }

  /** Line j of a stretch in two places. */
  lemma {:induction false} SameStretch(lines: seq<Op>, a: nat, body: seq<Op>, s: nat, e: nat, facts: Facts,
                                       world: seq<Moment>, during: seq<Moment>, j: nat)
    requires s <= e <= |body| == |world| && a <= |lines| == |during| && lines[a..] == body[s..e]
    requires OpenBefore(body, s) == [] && OpenBefore(lines, a) == [] && during[a..] == world[s..e] && a + j < |lines|
    ensures s + j < e && lines[a + j] == body[s + j]
    ensures Active(lines, facts, during, a + j) <==> Active(body, facts, world, s + j)
  {
    hide *;
    var n := |lines|;
    assert lines[a..n] == body[s..e] && during[a..n] == world[s..e];
    assert |lines[a..n]| == n - a && |body[s..e]| == e - s;
    assert lines[a..n][j] == lines[a + j] && body[s..e][j] == body[s + j];
    StretchIs(lines, during, a, n);
    StretchIs(body, world, s, e);
    ShiftActive(lines, facts, during, a, n, j);
    ShiftActive(body, facts, world, s, e, j);
  }

  lemma {:induction false} StretchIs(ops: seq<Op>, world: seq<Moment>, a: nat, b: nat)
    requires |ops| == |world| && a <= b <= |ops| && OpenBefore(ops, a) == []
    ensures Stretch(ops, world, a, b)
  {
  }

  lemma {:induction false} OutInRange(lines: seq<Op>, out: seq<nat>)
    requires Reordered(lines, out)
    ensures |out| == |lines| && forall k :: 0 <= k < |out| ==> out[k] < |lines|
    ensures |Picked(lines, out)| == |lines| && forall k :: 0 <= k < |lines| ==> Picked(lines, out)[k] == lines[out[k]]
  {
    hide SortedTo;
  }

  lemma {:induction false} NotAStub(lines: seq<Op>, a: nat, out: seq<nat>, k: nat)
    requires StubsFirst(lines, a) && Reordered(lines, out) && k < |lines| && !IsControlKind(lines[k].kind)
    ensures a <= out[k] < |lines| && !IsControlKind(lines[out[k]].kind)
  {
    StaysInRun(lines, out, k);
    hide SortedTo, OpenBefore, Balanced;
    var s: nat, e: nat :| IsRun(lines, s, e) && s <= k < e && s <= out[k] < e;
    if out[k] < a {
      StubsFirstOpen(lines, a, out[k]);
    }
  }

  lemma {:induction false} ExecutedMember(ops: seq<Op>, facts: Facts, world: seq<Moment>, n: nat, k: nat)
    requires n <= |ops| == |world|
    ensures k in Executed(ops, facts, world, n) <==>
            k < n && !IsControlKind(ops[k].kind) && Active(ops, facts, world, k)
  {
    hide Active, IsControlKind;
    if n > 0 {
      ExecutedMember(ops, facts, world, n - 1, k);
    }
  }

  /** A sorted chunk that applied until end. */
  ghost predicate SortedRun(chunk: Chunk, facts: Facts, during: seq<Moment>, out: seq<nat>, applied: seq<nat>,
                            end: End) {
    && |chunk.ops| > 0 && |during| == |chunk.ops| - 1 && Reordered(chunk.ops[1..], out)
    && Applies(Picked(chunk.ops[1..], out), facts, during, applied, end)
  }

  /** Line k of chunk c ran, and is op i of the body. */
  ghost predicate RanAs(bounds: seq<nat>, cut: seq<Chunk>, outs: seq<seq<nat>>, applied: seq<seq<nat>>, c: nat, k: nat,
                        i: nat)
  {
    && c < |cut| && c < |bounds| && c < |outs| && c < |applied| && k < |outs[c]|
    && k in applied[c] && Origin(bounds, cut, c, outs[c], k) == i
  }

  /** The first chunks, sorted, met the moments of their parts and applied
      until their ends; the others did not run. */
  ghost predicate SomeRan(chunks: seq<Chunk>, bounds: seq<nat>, cut: seq<Chunk>, facts: Facts, world: seq<Moment>,
                          durings: seq<seq<Moment>>, outs: seq<seq<nat>>, applied: seq<seq<nat>>, ends: seq<End>) {
    && |durings| == |outs| == |applied| == |ends| <= |chunks| == |cut|
    && forall c :: 0 <= c < |ends| ==>
         && SameMoments(world, bounds, cut, c, durings[c])
         && SortedRun(chunks[c], facts, durings[c], outs[c], applied[c], ends[c])
  }

  lemma {:induction false} ChunkRan(chunks: seq<Chunk>, bounds: seq<nat>, cut: seq<Chunk>, facts: Facts,
                                    world: seq<Moment>, durings: seq<seq<Moment>>, outs: seq<seq<nat>>,
                                    applied: seq<seq<nat>>, ends: seq<End>, c: nat)
    requires SomeRan(chunks, bounds, cut, facts, world, durings, outs, applied, ends) && c < |ends|
    ensures |durings| == |outs| == |applied| == |ends| <= |chunks| == |cut| && |chunks[c].ops| > 0
    ensures |durings[c]| == |chunks[c].ops| - 1 && SameMoments(world, bounds, cut, c, durings[c])
    ensures Reordered(chunks[c].ops[1..], outs[c]) && |Picked(chunks[c].ops[1..], outs[c])| == |chunks[c].ops| - 1
    ensures forall k :: k in applied[c] ==>
              0 <= k < |chunks[c].ops| - 1 && !IsControlKind(Picked(chunks[c].ops[1..], outs[c])[k].kind) &&
              Active(Picked(chunks[c].ops[1..], outs[c]), facts, durings[c], k)
    ensures ends[c] == Finished ==>
              forall k :: (0 <= k < |chunks[c].ops| - 1 &&
                           !IsControlKind(Picked(chunks[c].ops[1..], outs[c])[k].kind) &&
                           Active(Picked(chunks[c].ops[1..], outs[c]), facts, durings[c], k)) ==> k in applied[c]
  {
    hide SameMoments, Reordered, Active, OpenBefore, IsControlKind, Runs, Executed;
    assert SortedRun(chunks[c], facts, durings[c], outs[c], applied[c], ends[c]);
    OutInRange(chunks[c].ops[1..], outs[c]);
    var sorted := Picked(chunks[c].ops[1..], outs[c]);
    var n: nat := if ends[c].Finished? || ends[c].Unclosed? then |sorted| else ends[c].at;
    assert applied[c] == Executed(sorted, facts, durings[c], n);
    forall k: nat
      ensures k in applied[c] <==> k < n && !IsControlKind(sorted[k].kind) && Active(sorted, facts, durings[c], k)
    {
      ExecutedMember(sorted, facts, durings[c], n, k);
    }
  }

  /** Whatever a line of a sorted chunk ran, before its chunk ended or was
      stopped, is an op of its part that the unsplit, unsorted body runs too
      with the same moments line by line. */
  lemma {:induction false} LineRan(ops: seq<Op>, chunks: seq<Chunk>, eff: seq<bool>, bounds: seq<nat>, cut: seq<Chunk>,
                                   facts: Facts, world: seq<Moment>, durings: seq<seq<Moment>>, outs: seq<seq<nat>>,
                                   applied: seq<seq<nat>>, ends: seq<End>, c: nat, k: nat, i: nat)
    requires SplitOf(ops, chunks, eff, bounds, cut) && |world| == |BodyOf(ops)|
    requires SomeRan(chunks, bounds, cut, facts, world, durings, outs, applied, ends)
    requires RanAs(bounds, cut, outs, applied, c, k, i)
    ensures c < |chunks| && c < |outs| && c + 1 < |bounds| && bounds[c] <= i < bounds[c + 1] && k < |outs[c]|
    ensures i in Executed(BodyOf(ops), facts, world, |BodyOf(ops)|)
  {
    hide *;
    RanIs(bounds, cut, outs, applied, c, k, i);
    RanSizes(chunks, bounds, cut, facts, world, durings, outs, applied, ends);
    ChunkRan(chunks, bounds, cut, facts, world, durings, outs, applied, ends, c);
    var lines := chunks[c].ops[1..];
    OutInRange(lines, outs[c]);
    SameLineKind(lines, outs[c], k);
    SortedLineRuns(ops, chunks, eff, bounds, cut, c, facts, world, durings[c], outs[c], k);
    LineTells(BodyOf(ops), facts, world, lines, outs[c], durings[c], k, i);
    ExecutedMember(BodyOf(ops), facts, world, |BodyOf(ops)|, i);
  }

  lemma {:induction false} RanIs(bounds: seq<nat>, cut: seq<Chunk>, outs: seq<seq<nat>>, applied: seq<seq<nat>>, c: nat,
                                 k: nat, i: nat)
    ensures RanAs(bounds, cut, outs, applied, c, k, i) <==>
              && c < |cut| && c < |bounds| && c < |outs| && c < |applied| && k < |outs[c]|
              && k in applied[c] && Origin(bounds, cut, c, outs[c], k) == i
  {
  }

  lemma {:induction false} RanSizes(chunks: seq<Chunk>, bounds: seq<nat>, cut: seq<Chunk>, facts: Facts,
                                    world: seq<Moment>, durings: seq<seq<Moment>>, outs: seq<seq<nat>>,
                                    applied: seq<seq<nat>>, ends: seq<End>)
    requires SomeRan(chunks, bounds, cut, facts, world, durings, outs, applied, ends)
    ensures |durings| == |outs| == |applied| == |ends| <= |chunks| == |cut|
  {
  }

  lemma {:induction false} SameLineKind(lines: seq<Op>, out: seq<nat>, k: nat)
    requires Reordered(lines, out) && k < |lines|
    ensures |Picked(lines, out)| == |lines|
    ensures IsControlKind(Picked(lines, out)[k].kind) <==> IsControlKind(lines[k].kind)
    ensures IsControlKind(lines[k].kind) ==> k < |out| && out[k] == k
  {
    OutInRange(lines, out);
    SameLine(lines, out, k);
    StaysInRun(lines, out, k);
  }

  lemma {:induction false} LineTells(body: seq<Op>, facts: Facts, world: seq<Moment>, lines: seq<Op>, out: seq<nat>,
                                     during: seq<Moment>, k: nat, i: nat)
    requires |lines| == |during| && |body| == |world| && LineOf(body, facts, world, lines, out, during, k, i)
    ensures Reordered(lines, out) && |Picked(lines, out)| == |lines| && k < |lines| && i < |body|
    ensures !IsControlKind(body[i].kind)
    ensures Active(Picked(lines, out), facts, during, k) <==> Active(body, facts, world, i)
  {
    hide Reordered, Active, IsControlKind;
  }

  /** Where op i of the body is a line of a sorted chunk. */
  lemma {:induction false} LineFor(ops: seq<Op>, chunks: seq<Chunk>, eff: seq<bool>, bounds: seq<nat>, cut: seq<Chunk>,
                                   c: nat, out: seq<nat>, i: nat) returns (k: nat)
    requires SplitOf(ops, chunks, eff, bounds, cut) && c < |chunks| == |cut| && c + 1 < |bounds|
    requires |chunks[c].ops| > 0 && Reordered(chunks[c].ops[1..], out)
    requires bounds[c] <= i < bounds[c + 1] && i < |BodyOf(ops)| && !IsControlKind(BodyOf(ops)[i].kind)
    ensures k < |out| && k < |chunks[c].ops[1..]| && Origin(bounds, cut, c, out, k) == i
    ensures !IsControlKind(chunks[c].ops[1..][k].kind)
  {
    hide *;
    ReturnedChunk(ops, chunks, eff, bounds, cut, c);
    ReturnedCloses(ops, chunks, eff, bounds, cut, c);
    var lines, a := chunks[c].ops[1..], StubCount(cut, c);
    var j: nat := a + i - bounds[c];
    assert lines[j] == lines[a..][i - bounds[c]] == BodyOf(ops)[bounds[c]..bounds[c + 1]][i - bounds[c]];
    OutInRange(lines, out);
    OutPermutes(lines, out);
    PermutationHolds(|lines|, out, j);
    k :| 0 <= k < |out| && out[k] == j;
    SameLineKind(lines, out, k);
    OriginIs(bounds, cut, c, out, k);
  }

  lemma {:induction false} OutPermutes(lines: seq<Op>, out: seq<nat>)
    requires Reordered(lines, out)
    ensures Permutation(|lines|, out)
  {
    hide Permutation, SortedTo;
  }

  /** Splitting and sorting together preserve what is done.  If every chunk
      applies to its end, each checked, sorted and with its stubs, they run
      exactly the ops that the plan body runs unsplit and unsorted with the
      same moments line by line. */
  lemma {:induction false} SplitSortedRunsSame(ops: seq<Op>, chunks: seq<Chunk>, eff: seq<bool>, bounds: seq<nat>,
                                               cut: seq<Chunk>, facts: Facts, world: seq<Moment>,
                                               durings: seq<seq<Moment>>, outs: seq<seq<nat>>,
                                               applied: seq<seq<nat>>, ends: seq<End>, i: nat)
    requires SplitOf(ops, chunks, eff, bounds, cut) && |world| == |BodyOf(ops)|
    requires SomeRan(chunks, bounds, cut, facts, world, durings, outs, applied, ends)
    requires |ends| == |chunks| && forall c :: 0 <= c < |ends| ==> ends[c] == Finished
    ensures i in Executed(BodyOf(ops), facts, world, |BodyOf(ops)|) <==>
              exists c: nat, k: nat :: RanAs(bounds, cut, outs, applied, c, k, i)
  {
    hide *;
    if c: nat, k: nat :| RanAs(bounds, cut, outs, applied, c, k, i) {
      LineRan(ops, chunks, eff, bounds, cut, facts, world, durings, outs, applied, ends, c, k, i);
    }
    ExecutedMember(BodyOf(ops), facts, world, |BodyOf(ops)|, i);
    if i in Executed(BodyOf(ops), facts, world, |BodyOf(ops)|) {
      var c, k := RanSomewhere(ops, chunks, eff, bounds, cut, facts, world, durings, outs, applied, ends, i);
    }
  }

  lemma {:induction false} RanSomewhere(ops: seq<Op>, chunks: seq<Chunk>, eff: seq<bool>, bounds: seq<nat>,
                                        cut: seq<Chunk>, facts: Facts, world: seq<Moment>, durings: seq<seq<Moment>>,
                                        outs: seq<seq<nat>>, applied: seq<seq<nat>>, ends: seq<End>, i: nat)
    returns (c: nat, k: nat)
    requires SplitOf(ops, chunks, eff, bounds, cut) && i < |world| == |BodyOf(ops)|
    requires SomeRan(chunks, bounds, cut, facts, world, durings, outs, applied, ends)
    requires |ends| == |chunks| && forall c :: 0 <= c < |ends| ==> ends[c] == Finished
    requires !IsControlKind(BodyOf(ops)[i].kind) && Active(BodyOf(ops), facts, world, i)
    ensures RanAs(bounds, cut, outs, applied, c, k, i)
  {
    hide *;
    RanSizes(chunks, bounds, cut, facts, world, durings, outs, applied, ends);
    c := PartAround(ops, chunks, eff, bounds, cut, i);
    ChunkRan(chunks, bounds, cut, facts, world, durings, outs, applied, ends, c);
    k := LineFor(ops, chunks, eff, bounds, cut, c, outs[c], i);
    SortedLineRuns(ops, chunks, eff, bounds, cut, c, facts, world, durings[c], outs[c], k);
    LineTells(BodyOf(ops), facts, world, chunks[c].ops[1..], outs[c], durings[c], k, i);
    SameLineKind(chunks[c].ops[1..], outs[c], k);
    RanIs(bounds, cut, outs, applied, c, k, i);
  }

  lemma {:induction false} PartAround(ops: seq<Op>, chunks: seq<Chunk>, eff: seq<bool>, bounds: seq<nat>,
                                      cut: seq<Chunk>, i: nat) returns (c: nat)
    requires SplitOf(ops, chunks, eff, bounds, cut) && i < |BodyOf(ops)|
    ensures c < |chunks| && c + 1 < |bounds| && bounds[c] <= i < bounds[c + 1]
  {
    SplitCuts(ops, chunks, eff, bounds, cut);
    CutEnd(BodyOf(ops), eff, bounds);
    BoundsOf(ops, chunks, eff, bounds, cut);
    hide *;
    c := 0;
    while bounds[c + 1] <= i
      invariant c + 1 < |bounds| && bounds[c] <= i
      decreases |bounds| - c
    {
      c := c + 1;
    }
  }

  lemma {:induction false} BoundsOf(ops: seq<Op>, chunks: seq<Chunk>, eff: seq<bool>, bounds: seq<nat>, cut: seq<Chunk>)
    requires SplitOf(ops, chunks, eff, bounds, cut)
    ensures |chunks| == |cut| == |bounds| - 1 && |bounds| > 1 && bounds[0] == 0
  {
    hide Balanced, Pending, Promoted;
  }

  /** Each op of the body runs as one line of one chunk only. */
  lemma {:induction false} OpRunsOnce(ops: seq<Op>, chunks: seq<Chunk>, eff: seq<bool>, bounds: seq<nat>,
                                      cut: seq<Chunk>, facts: Facts, world: seq<Moment>, durings: seq<seq<Moment>>,
                                      outs: seq<seq<nat>>, applied: seq<seq<nat>>, ends: seq<End>, c: nat, k: nat,
                                      c': nat, k': nat, i: nat)
    requires SplitOf(ops, chunks, eff, bounds, cut) && |world| == |BodyOf(ops)|
    requires SomeRan(chunks, bounds, cut, facts, world, durings, outs, applied, ends)
    requires RanAs(bounds, cut, outs, applied, c, k, i) && RanAs(bounds, cut, outs, applied, c', k', i)
    ensures c == c' && k == k'
  {
    hide *;
    LineRan(ops, chunks, eff, bounds, cut, facts, world, durings, outs, applied, ends, c, k, i);
    LineRan(ops, chunks, eff, bounds, cut, facts, world, durings, outs, applied, ends, c', k', i);
    OnePart(ops, chunks, eff, bounds, cut, c, c', i);
    RanIs(bounds, cut, outs, applied, c, k, i);
    RanIs(bounds, cut, outs, applied, c, k', i);
    OriginIs(bounds, cut, c, outs[c], k);
    OriginIs(bounds, cut, c, outs[c], k');
    RanSizes(chunks, bounds, cut, facts, world, durings, outs, applied, ends);
    ChunkRan(chunks, bounds, cut, facts, world, durings, outs, applied, ends, c);
    OutDistinct(chunks[c].ops[1..], outs[c], k, k');
  }

  lemma {:induction false} OutDistinct(lines: seq<Op>, out: seq<nat>, j: nat, k: nat)
    requires Reordered(lines, out) && j < |out| && k < |out| && out[j] == out[k]
    ensures j == k
  {
    hide SortedTo;
  }

  lemma {:induction false} OnePart(ops: seq<Op>, chunks: seq<Chunk>, eff: seq<bool>, bounds: seq<nat>, cut: seq<Chunk>,
                                   c: nat, d: nat, i: nat)
    requires SplitOf(ops, chunks, eff, bounds, cut) && c + 1 < |bounds| && d + 1 < |bounds|
    requires bounds[c] <= i < bounds[c + 1] && bounds[d] <= i < bounds[d + 1]
    ensures c == d
  {
    if c < d {
      PartsRise(ops, chunks, eff, bounds, cut, c + 1, d);
    } else if d < c {
      PartsRise(ops, chunks, eff, bounds, cut, d + 1, c);
    }
  }

  lemma {:induction false} PartsRise(ops: seq<Op>, chunks: seq<Chunk>, eff: seq<bool>, bounds: seq<nat>,
                                     cut: seq<Chunk>, c: nat, d: nat)
    requires SplitOf(ops, chunks, eff, bounds, cut) && c <= d < |bounds|
    ensures bounds[c] <= bounds[d]
    decreases d - c
  {
    hide *;
    BoundsOf(ops, chunks, eff, bounds, cut);
    if c < d {
      PartsRise(ops, chunks, eff, bounds, cut, c, d - 1);
      ReturnedChunk(ops, chunks, eff, bounds, cut, d - 1);
    }
  }

  /** All lines the first n chunks apply, each chunk's in its own order. */
  function AppliedLines(chunks: seq<Chunk>, outs: seq<seq<nat>>, n: nat): seq<Op>
    requires n <= |chunks| == |outs|
    requires forall c, k :: 0 <= c < |outs| && 0 <= k < |outs[c]| ==> outs[c][k] < |OwnPart(chunks[c])|
  {
    if n == 0 then [] else AppliedLines(chunks, outs, n - 1) + Picked(OwnPart(chunks[n - 1]), outs[n - 1])
  }

  /** The stubs of the first n chunks. */
  function AllStubs(cut: seq<Chunk>, n: nat): seq<Op>
    requires n <= |cut|
  {
    if n == 0 then [] else AllStubs(cut, n - 1) + Pending(cut, n)
  }

  /** Over all chunks the apply orders are a permutation of the whole plan
      body and the stubs: nothing is lost, added or applied twice. */
  lemma {:induction false} WholePlanPermuted(ops: seq<Op>, chunks: seq<Chunk>, eff: seq<bool>, bounds: seq<nat>,
                                             cut: seq<Chunk>, outs: seq<seq<nat>>)
    requires SplitOf(ops, chunks, eff, bounds, cut) && |outs| == |chunks| == |cut|
    requires forall c :: 0 <= c < |chunks| ==> Permutation(|OwnPart(chunks[c])|, outs[c])
    ensures (forall c, k :: 0 <= c < |outs| && 0 <= k < |outs[c]| ==> outs[c][k] < |OwnPart(chunks[c])|)
    ensures multiset(AppliedLines(chunks, outs, |chunks|)) == multiset(BodyOf(ops)) + multiset(AllStubs(cut, |cut|))
  {
    BoundsOf(ops, chunks, eff, bounds, cut);
    SplitCuts(ops, chunks, eff, bounds, cut);
    CutEnd(BodyOf(ops), eff, bounds);
    hide SplitOf, CutBody, Pending, OwnPart;
    FirstPermuted(ops, chunks, eff, bounds, cut, outs, |chunks|);
    assert BodyOf(ops)[..|BodyOf(ops)|] == BodyOf(ops);
  }

  lemma {:induction false} FirstPermuted(ops: seq<Op>, chunks: seq<Chunk>, eff: seq<bool>, bounds: seq<nat>,
                                         cut: seq<Chunk>, outs: seq<seq<nat>>, n: nat)
    requires SplitOf(ops, chunks, eff, bounds, cut) && n <= |outs| == |chunks| == |cut| == |bounds| - 1
    requires forall c :: 0 <= c < |chunks| ==> Permutation(|OwnPart(chunks[c])|, outs[c])
    ensures (forall c, k :: 0 <= c < |outs| && 0 <= k < |outs[c]| ==> outs[c][k] < |OwnPart(chunks[c])|)
    ensures bounds[n] <= |BodyOf(ops)|
    ensures multiset(AppliedLines(chunks, outs, n)) == multiset(BodyOf(ops)[..bounds[n]]) + multiset(AllStubs(cut, n))
  {
    hide SplitOf, Pending, OwnPart;
    AllInRange(chunks, outs);
    BoundsOf(ops, chunks, eff, bounds, cut);
    if n > 0 {
      FirstPermuted(ops, chunks, eff, bounds, cut, outs, n - 1);
      OneMorePermuted(ops, chunks, eff, bounds, cut, outs[n - 1], n - 1);
      var body := BodyOf(ops);
      hide Permutation, Picked;
      assert body[..bounds[n]] == body[..bounds[n - 1]] + body[bounds[n - 1]..bounds[n]];
    }
  }

  lemma {:induction false} AllInRange(chunks: seq<Chunk>, outs: seq<seq<nat>>)
    requires |outs| == |chunks| && forall c :: 0 <= c < |chunks| ==> Permutation(|OwnPart(chunks[c])|, outs[c])
    ensures (forall c, k :: 0 <= c < |outs| && 0 <= k < |outs[c]| ==> outs[c][k] < |OwnPart(chunks[c])|)
  {
    hide OwnPart;
  }

  lemma {:induction false} OneMorePermuted(ops: seq<Op>, chunks: seq<Chunk>, eff: seq<bool>, bounds: seq<nat>,
                                           cut: seq<Chunk>, out: seq<nat>, c: nat)
    requires SplitOf(ops, chunks, eff, bounds, cut) && c < |chunks| && Permutation(|OwnPart(chunks[c])|, out)
    ensures c < |cut| && c + 1 < |bounds| && bounds[c] <= bounds[c + 1] <= |BodyOf(ops)|
    ensures forall k :: 0 <= k < |out| ==> out[k] < |OwnPart(chunks[c])|
    ensures multiset(Picked(OwnPart(chunks[c]), out)) ==
            multiset(Pending(cut, c + 1)) + multiset(BodyOf(ops)[bounds[c]..bounds[c + 1]])
  {
    hide *;
    ReturnedChunk(ops, chunks, eff, bounds, cut, c);
    PermutationBelow(OwnPart(chunks[c]), out);
    PickedMultiset(OwnPart(chunks[c]), out);
    OwnLines(chunks[c], ChunkHeader(HeaderOf(ops)), Pending(cut, c + 1), BodyOf(ops)[bounds[c]..bounds[c + 1]]);
  }

  lemma {:induction false} PermutationBelow(lines: seq<Op>, out: seq<nat>)
    requires Permutation(|lines|, out)
    ensures forall k :: 0 <= k < |out| ==> out[k] < |lines|
  {
  }

  lemma {:induction false} OwnLines(chunk: Chunk, header: Op, stubs: seq<Op>, part: seq<Op>)
    requires chunk.ops == [header] + stubs + part
    ensures OwnPart(chunk) == stubs + part
  {
  }
}
