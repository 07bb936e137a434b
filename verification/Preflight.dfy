/** Apply's own look at cross-chunk watches, api/preflight.go, next to the
    change-gate check it words in other terms. */
module Preflight {
  import opened Ops
  import opened DepGraphs
  import opened ChunkChecks
  import opened PlanChecks
  import opened Splits
  import opened Requirements
  import opened ApplyPlan

  /** The resource ops of a chunk. */
  function ResourceOps(ops: seq<Op>): (resources: seq<Op>)
    ensures forall op :: op in resources <==> op in ops && !IsControlKind(op.kind)
  {
    if ops == [] then []
    else
      var rest, last := ResourceOps(ops[..|ops| - 1]), ops[|ops| - 1];
      assert forall op :: op in ops <==> op in ops[..|ops| - 1] || op == last;
      if IsControlKind(last.kind) then rest else rest + [last]
  }

  function Resources(bodies: seq<seq<Op>>): (resources: seq<seq<Op>>)
    ensures |resources| == |bodies|
  {
    seq(|bodies|, c requires 0 <= c < |bodies| => ResourceOps(bodies[c]))
  }

  /** The first chunk with a resource op of each ID, as crossChunkWatchRefusal
      collects it. */
  method ChunkOfResources(bodies: seq<seq<Op>>) returns (chunkOf: map<string, nat>)
    ensures IndexesChunks(chunkOf, Resources(bodies))
  {
    var resources := Resources(bodies);
    chunkOf := map[];
    for c := 0 to |bodies|
      invariant IndexesChunks(chunkOf, resources[..c])
    {
      for k := 0 to |bodies[c]|
        invariant IndexesSome(chunkOf, resources, c, ResourceOps(bodies[c][..k]))
      {
        assert bodies[c][..k + 1][..k] == bodies[c][..k];
        var op := bodies[c][k];
        SomeNext(chunkOf, resources, c, ResourceOps(bodies[c][..k]), op);
        if op.id != "" && !IsControlKind(op.kind) && op.id !in chunkOf {
          chunkOf := chunkOf[op.id := c];
        }
      }
      assert bodies[c][..|bodies[c]|] == bodies[c];
      SomeDone(chunkOf, resources, c);
    }
    assert resources[..|bodies|] == resources;
  }

  /** The ops of chunk c seen so far are indexed on top of the chunks before. */
  ghost predicate IndexesSome(chunkOf: map<string, nat>, resources: seq<seq<Op>>, c: nat, seen: seq<Op>)
    requires c < |resources|
  {
    forall id ::
      if ChunkWith(resources[..c], id) >= 0 then id in chunkOf && chunkOf[id] == ChunkWith(resources[..c], id)
      else if id != "" && FirstIndex(seen, id) >= 0 then id in chunkOf && chunkOf[id] == c
      else id !in chunkOf
  }

  lemma {:induction false} SomeNext(chunkOf: map<string, nat>, resources: seq<seq<Op>>, c: nat, seen: seq<Op>, op: Op)
    requires c < |resources| && IndexesSome(chunkOf, resources, c, seen)
    ensures var more := if op.id != "" && op.id !in chunkOf then chunkOf[op.id := c] else chunkOf;
            IndexesSome(more, resources, c, seen + [op])
  {
    assert (seen + [op])[..|seen|] == seen;
  }

  lemma {:induction false} SomeDone(chunkOf: map<string, nat>, resources: seq<seq<Op>>, c: nat)
    requires c < |resources| && IndexesSome(chunkOf, resources, c, resources[c])
    ensures IndexesChunks(chunkOf, resources[..c + 1])
  {
    assert resources[..c + 1][..c] == resources[..c];
  }

  /** Every gate before op k of chunk c is local, looked up in carriers. */
  ghost predicate PassedBefore(bodies: seq<seq<Op>>, carriers: seq<seq<Op>>, c: nat, k: nat) {
    forall c', k' :: 0 <= c' < |bodies| && 0 <= k' < |bodies[c']| && (c' < c || (c' == c && k' < k)) ==>
      GateLocal(carriers, c', bodies[c'][k'])
  }

  /** A scan looking watches up in carriers stops at op k of chunk c. */
  ghost predicate Stops(bodies: seq<seq<Op>>, carriers: seq<seq<Op>>, c: nat, k: nat) {
    && c < |bodies| && k < |bodies[c]| && PassedBefore(bodies, carriers, c, k)
    && !GateLocal(carriers, c, bodies[c][k])
  }

  /** The first watch of op that is not local. */
  ghost predicate StopsAt(carriers: seq<seq<Op>>, c: nat, op: Op, w: nat) {
    && w < |op.watch| && !WatchLocal(carriers, c, op.watch[w])
    && forall e :: 0 <= e < w ==> WatchLocal(carriers, c, op.watch[e])
  }

  /** What a scan of the gates answers that looks watches up in carriers. */
  ghost predicate Answer(bodies: seq<seq<Op>>, carriers: seq<seq<Op>>, a: Refusal) {
    match a
    case Accepted => PassedBefore(bodies, carriers, |bodies|, 0)
    case NoWatch(c, k) => Stops(bodies, carriers, c, k) && bodies[c][k].watch == []
    case DanglingWatch(c, k, w) =>
      && Stops(bodies, carriers, c, k) && StopsAt(carriers, c, bodies[c][k], w)
      && ChunkWith(carriers, bodies[c][k].watch[w]) < 0
    case CrossChunkWatch(c, k, w) =>
      && Stops(bodies, carriers, c, k) && StopsAt(carriers, c, bodies[c][k], w)
      && ChunkWith(carriers, bodies[c][k].watch[w]) >= 0
    case _ => false
  }

  /** The chunk check looks watches up among all ops. */
  lemma {:induction false} GatesAnswer(bodies: seq<seq<Op>>, gates: Refusal)
    requires if gates.Accepted? then GatesLocal(bodies) else GateTells(bodies, gates)
    ensures Answer(bodies, bodies, gates)
  {
    hide ChunkWith;
    if gates.DanglingWatch? || gates.CrossChunkWatch? {
      assert !WatchLocal(bodies, gates.chunk, bodies[gates.chunk][gates.op].watch[gates.at]);
    }
  }

  lemma {:induction false} PassedNext(bodies: seq<seq<Op>>, carriers: seq<seq<Op>>, c: nat, k: nat)
    requires c < |bodies| && k < |bodies[c]| && PassedBefore(bodies, carriers, c, k)
    requires GateLocal(carriers, c, bodies[c][k])
    ensures PassedBefore(bodies, carriers, c, k + 1)
  {
    hide GateLocal;
  }

  lemma {:induction false} PassedEnds(bodies: seq<seq<Op>>, carriers: seq<seq<Op>>)
    ensures PassedBefore(bodies, carriers, 0, 0)
    ensures forall c :: 0 <= c < |bodies| && PassedBefore(bodies, carriers, c, |bodies[c]|) ==>
              PassedBefore(bodies, carriers, c + 1, 0)
  {
    hide GateLocal;
  }

  /** The scan of one gated op: whether it goes on, and a watch that crosses. */
  method ScanWatches(ghost carriers: seq<seq<Op>>, chunkOf: map<string, nat>, c: nat, op: Op)
    returns (ok: bool, cross: Option<nat>, ghost w: nat)
    requires IndexesChunks(chunkOf, carriers) && op.ifChanged
    ensures ok <==> GateLocal(carriers, c, op)
    ensures cross.Some? ==> !ok && op.watch != [] && cross.value == w
    ensures !ok && op.watch != [] ==>
              && w < |op.watch| && StopsAt(carriers, c, op, w)
              && (cross.None? <==> ChunkWith(carriers, op.watch[w]) < 0)
  {
    hide ChunkWith, IndexesChunks;
    w := 0;
    if |op.watch| == 0 {
      return false, None, 0;
    }
    for i := 0 to |op.watch|
      invariant forall e :: 0 <= e < i ==> WatchLocal(carriers, c, op.watch[e])
    {
      Indexed(chunkOf, carriers, op.watch[i]);
      if op.watch[i] !in chunkOf {
        return false, None, i;
      }
      if chunkOf[op.watch[i]] != c {
        return false, Some(i), i;
      }
    }
    return true, None, 0;
  }

  lemma {:induction false} Indexed(chunkOf: map<string, nat>, carriers: seq<seq<Op>>, id: string)
    requires IndexesChunks(chunkOf, carriers)
    ensures id in chunkOf <==> ChunkWith(carriers, id) >= 0
    ensures id in chunkOf ==> chunkOf[id] == ChunkWith(carriers, id)
  {
  }

  /** A watch across chunks, or nothing to word. */
  function CrossOnly(a: Refusal): Refusal {
    if a.CrossChunkWatch? then a else Accepted
  }

  /** crossChunkWatchRefusal: the cross-chunk watch it words, or Accepted to
      leave the wording to the plan check.  It looks watches up among the
      resource ops only. */
  method CrossChunkWatchRefusal(bodies: seq<seq<Op>>) returns (r: Refusal, ghost scan: Refusal)
    ensures !DepsPlaced(bodies) ==> r == Accepted
    ensures DepsPlaced(bodies) ==> Answer(bodies, Resources(bodies), scan) && r == CrossOnly(scan)
  {
    hide PassedBefore, DepsPlaced, Resources, GateLocal, StopsAt, ChunkWith;
    ghost var carriers := Resources(bodies);
    PassedEnds(bodies, carriers);
    var chunkOf := ChunkOfResources(bodies);
    var deps := ValidateChunkDeps(bodies);
    if !deps.Accepted? {
      return Accepted, Accepted;
    }
    for c := 0 to |bodies|
      invariant PassedBefore(bodies, carriers, c, 0)
    {
      for k := 0 to |bodies[c]|
        invariant PassedBefore(bodies, carriers, c, k)
      {
        if bodies[c][k].ifChanged {
          var ok, cross;
          ghost var w;
          ok, cross, w := ScanWatches(carriers, chunkOf, c, bodies[c][k]);
          if !ok {
            if cross.Some? {
              return CrossChunkWatch(c, k, cross.value), CrossChunkWatch(c, k, cross.value);
            }
            return Accepted, if bodies[c][k].watch == [] then NoWatch(c, k) else DanglingWatch(c, k, w);
          }
        } else {
          Ungated(carriers, c, bodies[c][k]);
        }
        PassedNext(bodies, carriers, c, k);
      }
    }
    return Accepted, Accepted;
  }

  lemma {:induction false} Ungated(carriers: seq<seq<Op>>, c: nat, op: Op)
    requires !op.ifChanged
    ensures GateLocal(carriers, c, op)
  {
  }

  /** There is one answer. */
  lemma {:induction false} OneAnswer(bodies: seq<seq<Op>>, carriers: seq<seq<Op>>, a: Refusal, b: Refusal)
    requires Answer(bodies, carriers, a) && Answer(bodies, carriers, b)
    ensures a == b
  {
    hide GateLocal, ChunkWith, WatchLocal;
  }

  /** Op k of chunk c is the first gate where either scan stops. */
  ghost predicate EitherStops(bodies: seq<seq<Op>>, c: nat, k: nat) {
    var carriers := Resources(bodies);
    && c < |bodies| && k < |bodies[c]|
    && PassedBefore(bodies, bodies, c, k) && PassedBefore(bodies, carriers, c, k)
    && !(GateLocal(bodies, c, bodies[c][k]) && GateLocal(carriers, c, bodies[c][k]))
  }

  ghost predicate BothLocal(bodies: seq<seq<Op>>, c: nat, id: string) {
    WatchLocal(bodies, c, id) && WatchLocal(Resources(bodies), c, id)
  }

  /** Watch w of it is the first that either scan does not go past. */
  ghost predicate EitherStopsAt(bodies: seq<seq<Op>>, c: nat, k: nat, w: nat) {
    && EitherStops(bodies, c, k) && w < |bodies[c][k].watch| && !BothLocal(bodies, c, bodies[c][k].watch[w])
    && forall e :: 0 <= e < w ==> BothLocal(bodies, c, bodies[c][k].watch[e])
  }

  /** The chunk check stops at a watch across chunks somewhere. */
  ghost predicate SomeCross(bodies: seq<seq<Op>>) {
    exists c, k, w :: Answer(bodies, bodies, CrossChunkWatch(c, k, w))
  }

  /** What the two lookups of that watch must say: nothing carries it; or both
      find it in other chunks; or its chunk has it on a control op only, and
      the chunk check, which goes on, stops at no watch across chunks. */
  ghost predicate LookupsAgree(bodies: seq<seq<Op>>, c: nat, id: string) {
    var full, resources := ChunkWith(bodies, id), ChunkWith(Resources(bodies), id);
    || full < 0
    || (full != c && resources >= 0 && resources != c)
    || (full == c && resources < 0 && !SomeCross(bodies))
  }

  ghost predicate Agreeing(bodies: seq<seq<Op>>) {
    forall c: nat, k: nat, w: nat :: EitherStopsAt(bodies, c, k, w) ==> LookupsAgree(bodies, c, bodies[c][k].watch[w])
  }

  /** The watch across chunks the pre-flight reports, if that is its verdict. */
  function CrossOf(v: Verdict): Refusal {
    if v.BadGate? then CrossOnly(v.reason) else Accepted
  }

  /** What the gate rule answers where the pre-flight comes to it. */
  function GatesOf(v: Verdict): Refusal {
    if v.BadGate? then v.reason else Accepted
  }

  /** The scan that rewords stops at a watch across chunks somewhere. */
  ghost predicate SomeReworded(bodies: seq<seq<Op>>) {
    exists c, k, w :: Answer(bodies, Resources(bodies), CrossChunkWatch(c, k, w))
  }

  /** The reworded refusal r is exactly the watch across chunks that the plan
      check reports, or neither is one, if and only if the dependency check
      refuses; or the rules ahead of it accept and the two lookups agree where
      either scan first stops; or those rules refuse and nothing is reworded. */
  lemma {:induction false} SameWatchRefused(bodies: seq<seq<Op>>, v: Verdict, scan: Refusal, r: Refusal)
    requires VerdictTells(bodies, v)
    requires if DepsPlaced(bodies) then Answer(bodies, Resources(bodies), scan) && r == CrossOnly(scan)
             else r == Accepted
    ensures r == CrossOf(v) <==>
              || !DepsPlaced(bodies)
              || (if NegationsOk(bodies) && ServicesOk(bodies) then Agreeing(bodies) else !SomeReworded(bodies))
  {
    hide *;
    VerdictCases(bodies, v);
    if DepsPlaced(bodies) {
      if NegationsOk(bodies) && ServicesOk(bodies) {
        GatesAnswer(bodies, GatesOf(v));
        SameAnswers(bodies, GatesOf(v), scan);
      } else {
        Reworded(bodies, scan);
      }
    }
  }

  lemma {:induction false} VerdictCases(bodies: seq<seq<Op>>, v: Verdict)
    requires VerdictTells(bodies, v)
    ensures !(NegationsOk(bodies) && ServicesOk(bodies) && DepsPlaced(bodies)) ==> CrossOf(v) == Accepted
    ensures NegationsOk(bodies) && ServicesOk(bodies) && DepsPlaced(bodies) ==>
              && CrossOf(v) == CrossOnly(GatesOf(v))
              && if GatesOf(v).Accepted? then GatesLocal(bodies) else GateTells(bodies, GatesOf(v))
  {
    AcceptedIff(bodies, v);
    hide NegationsOk, ServicesOk, DepsPlaced, GatesLocal, AllScopesOk, FirstGate, FirstWatch, FirstMisplaced, ChunkWith;
  }

  lemma {:induction false} Reworded(bodies: seq<seq<Op>>, scan: Refusal)
    requires Answer(bodies, Resources(bodies), scan)
    ensures CrossOnly(scan) == Accepted <==> !SomeReworded(bodies)
  {
    hide Answer, Resources;
    if SomeReworded(bodies) {
      var c, k, w :| Answer(bodies, Resources(bodies), CrossChunkWatch(c, k, w));
      OneAnswer(bodies, Resources(bodies), scan, CrossChunkWatch(c, k, w));
    }
  }

  lemma {:induction false} SameAnswers(bodies: seq<seq<Op>>, gates: Refusal, scan: Refusal)
    requires Answer(bodies, bodies, gates) && Answer(bodies, Resources(bodies), scan)
    ensures CrossOnly(scan) == CrossOnly(gates) <==> Agreeing(bodies)
  {
    hide Answer, EitherStopsAt, LookupsAgree;
    if c: nat, k: nat, w: nat :| EitherStopsAt(bodies, c, k, w) {
      AgreeAt(bodies, c, k, w, gates, scan);
      forall c': nat, k': nat, w': nat | EitherStopsAt(bodies, c', k', w')
        ensures c == c' && k == k' && w == w'
      {
        OneStop(bodies, c, k, w, c', k', w');
      }
    } else {
      NoStop(bodies, gates, scan);
    }
  }

  lemma {:induction false} OneStop(bodies: seq<seq<Op>>, c: nat, k: nat, w: nat, c': nat, k': nat, w': nat)
    requires EitherStopsAt(bodies, c, k, w) && EitherStopsAt(bodies, c', k', w')
    ensures c == c' && k == k' && w == w'
  {
    hide GateLocal, BothLocal, Resources;
  }

  /** If no watch stops a scan first, both accept or both find no watch. */
  lemma {:induction false} NoStop(bodies: seq<seq<Op>>, gates: Refusal, scan: Refusal)
    requires Answer(bodies, bodies, gates) && Answer(bodies, Resources(bodies), scan)
    requires forall c: nat, k: nat, w: nat :: !EitherStopsAt(bodies, c, k, w)
    ensures CrossOnly(gates) == CrossOnly(scan)
  {
    hide Answer, EitherStopsAt, EitherStops;
    if gates.CrossChunkWatch? || scan.CrossChunkWatch? {
      var c, k := FirstStop(bodies, gates, scan);
      StopInRange(bodies, c, k);
      if bodies[c][k].watch == [] {
        Unwatched(bodies, c, k, gates, scan);
      } else {
        var w := FirstStopAt(bodies, c, k);
      }
    }
  }

  lemma {:induction false} StopInRange(bodies: seq<seq<Op>>, c: nat, k: nat)
    requires EitherStops(bodies, c, k)
    ensures c < |bodies| && k < |bodies[c]|
  {
  }

  lemma {:induction false} Unwatched(bodies: seq<seq<Op>>, c: nat, k: nat, gates: Refusal, scan: Refusal)
    requires Answer(bodies, bodies, gates) && Answer(bodies, Resources(bodies), scan)
    requires EitherStops(bodies, c, k) && bodies[c][k].watch == []
    ensures gates == NoWatch(c, k) == scan
  {
    hide PassedBefore, Resources;
    OneAnswer(bodies, bodies, gates, NoWatch(c, k));
    OneAnswer(bodies, Resources(bodies), scan, NoWatch(c, k));
  }

  /** The earlier of the two stops. */
  lemma {:induction false} FirstStop(bodies: seq<seq<Op>>, gates: Refusal, scan: Refusal) returns (c: nat, k: nat)
    requires Answer(bodies, bodies, gates) && Answer(bodies, Resources(bodies), scan)
    requires !gates.Accepted? || !scan.Accepted?
    ensures EitherStops(bodies, c, k)
  {
    hide GateLocal, Resources, StopsAt, ChunkWith;
    if scan.Accepted? || (!gates.Accepted? &&
       (gates.chunk < scan.chunk || (gates.chunk == scan.chunk && gates.op <= scan.op))) {
      c, k := gates.chunk, gates.op;
    } else {
      c, k := scan.chunk, scan.op;
    }
  }

  lemma {:induction false} FirstStopAt(bodies: seq<seq<Op>>, c: nat, k: nat) returns (w: nat)
    requires EitherStops(bodies, c, k) && bodies[c][k].watch != []
    ensures EitherStopsAt(bodies, c, k, w)
  {
    hide PassedBefore, Resources, ChunkWith;
    var op := bodies[c][k];
    w := 0;
    while w < |op.watch| && BothLocal(bodies, c, op.watch[w])
      invariant w <= |op.watch| && forall e :: 0 <= e < w ==> BothLocal(bodies, c, op.watch[e])
    {
      w := w + 1;
    }
  }

  /** A resource carrier is a carrier. */
  lemma {:induction false} ResourceCarrier(bodies: seq<seq<Op>>, id: string)
    ensures ChunkWith(Resources(bodies), id) >= 0 ==> 0 <= ChunkWith(bodies, id) <= ChunkWith(Resources(bodies), id)
  {
    hide ResourceOps;
    var resources, at := Resources(bodies), ChunkWith(Resources(bodies), id);
    if at >= 0 {
      var i := FirstIndex(resources[at], id);
      assert resources[at][i] in resources[at];
      assert resources[at][i] in bodies[at];
      assert FirstIndex(bodies[at], id) >= 0;
    }
  }

  /** The answers at the first watch where either scan stops. */
  lemma {:induction false} AgreeAt(bodies: seq<seq<Op>>, c: nat, k: nat, w: nat, gates: Refusal, scan: Refusal)
    requires Answer(bodies, bodies, gates) && Answer(bodies, Resources(bodies), scan) && EitherStopsAt(bodies, c, k, w)
    ensures CrossOnly(scan) == CrossOnly(gates) <==> LookupsAgree(bodies, c, bodies[c][k].watch[w])
  {
    var carriers, id := Resources(bodies), bodies[c][k].watch[w];
    ResourceCarrier(bodies, id);
    LocalHere(bodies, c, k, w);
    StopHere(bodies, bodies, c, k, w, gates);
    StopHere(bodies, carriers, c, k, w, scan);
    if gates.CrossChunkWatch? {
      assert SomeCross(bodies);
    } else if SomeCross(bodies) {
      var c', k', w' :| Answer(bodies, bodies, CrossChunkWatch(c', k', w'));
      OneAnswer(bodies, bodies, gates, CrossChunkWatch(c', k', w'));
    }
    hide Answer, Resources, EitherStopsAt, SomeCross, ChunkWith;
  }

  lemma {:induction false} LocalHere(bodies: seq<seq<Op>>, c: nat, k: nat, w: nat)
    requires EitherStopsAt(bodies, c, k, w)
    ensures bodies[c][k].ifChanged
    ensures PassedBefore(bodies, bodies, c, k) && PassedBefore(bodies, Resources(bodies), c, k)
    ensures forall e :: 0 <= e < w ==>
              WatchLocal(bodies, c, bodies[c][k].watch[e]) && WatchLocal(Resources(bodies), c, bodies[c][k].watch[e])
    ensures !(WatchLocal(bodies, c, bodies[c][k].watch[w]) && WatchLocal(Resources(bodies), c, bodies[c][k].watch[w]))
  {
    hide PassedBefore, Resources, WatchLocal;
    assert forall e :: 0 <= e < w ==> BothLocal(bodies, c, bodies[c][k].watch[e]);
  }

  /** A scan that comes to a watch stops there unless it is local. */
  lemma {:induction false} StopHere(bodies: seq<seq<Op>>, carriers: seq<seq<Op>>, c: nat, k: nat, w: nat, a: Refusal)
    requires Answer(bodies, carriers, a) && c < |bodies| && k < |bodies[c]| && w < |bodies[c][k].watch|
    requires bodies[c][k].ifChanged && PassedBefore(bodies, carriers, c, k)
    requires forall e :: 0 <= e < w ==> WatchLocal(carriers, c, bodies[c][k].watch[e])
    ensures var at := ChunkWith(carriers, bodies[c][k].watch[w]);
            if at < 0 then a == DanglingWatch(c, k, w) else if at != c then a == CrossChunkWatch(c, k, w)
            else a != CrossChunkWatch(c, k, w) && a != DanglingWatch(c, k, w)
  {
    var at := ChunkWith(carriers, bodies[c][k].watch[w]);
    hide PassedBefore, ChunkWith;
    if at != c {
      assert !WatchLocal(carriers, c, bodies[c][k].watch[w]);
      assert Stops(bodies, carriers, c, k);
      OneAnswer(bodies, carriers, a, if at < 0 then DanglingWatch(c, k, w) else CrossChunkWatch(c, k, w));
    }
  }

  /** No watch's answer depends on control ops. */
  ghost predicate WatchesResources(bodies: seq<seq<Op>>) {
    forall c, k :: 0 <= c < |bodies| && 0 <= k < |bodies[c]| ==> OpWatchesResources(bodies, bodies[c][k])
  }

  ghost predicate OpWatchesResources(bodies: seq<seq<Op>>, op: Op) {
    forall w :: 0 <= w < |op.watch| ==> ChunkWith(Resources(bodies), op.watch[w]) == ChunkWith(bodies, op.watch[w])
  }

  /** Where no watch names a control op the two always agree. */
  lemma {:induction false} ResourcesAgree(bodies: seq<seq<Op>>)
    requires WatchesResources(bodies)
    ensures Agreeing(bodies)
  {
    hide Resources, ChunkWith, PassedBefore;
    forall c: nat, k: nat, w: nat | EitherStopsAt(bodies, c, k, w)
      ensures LookupsAgree(bodies, c, bodies[c][k].watch[w])
    {
      assert OpWatchesResources(bodies, bodies[c][k]);
      LocalHere(bodies, c, k, w);
    }
  }

  /** A header, an unprivileged op and a privileged one gated on the header. */
  predicate HeaderWatched(header: Op, op: Op, gated: Op) {
    && (forall o :: o in [header, op, gated] ==> NegationOk(o) && ServiceOk(o))
    && header.kind.KindPlan? && header.id != "" && header.deps == [] && !header.ifChanged
    && !IsControlKind(op.kind) && op.id != header.id && !op.elevate && op.deps == [] && !op.ifChanged
    && !IsControlKind(gated.kind) && gated.id != header.id && gated.elevate && gated.deps == []
    && gated.ifChanged && gated.watch == [header.id]
  }

  /** The split of such a plan repeats the header, so the chunk check finds the
      watch across chunks while the rewording, which passes over control ops,
      finds nothing. */
  method HeaderWatchDiffers(header: Op, op: Op, gated: Op) returns (v: Verdict, r: Refusal)
    requires HeaderWatched(header, op, gated)
    ensures v == BadGate(CrossChunkWatch(1, 1, 0)) && r == Accepted
  {
    hide Hoisted, Promoted, Cuts, CutInto, Answer, DepsPlaced, Resources, VerdictTells, GateTells;
    var ops := [header, op, gated];
    var chunks;
    ghost var eff, bounds, cut;
    chunks, eff, bounds, cut := SplitPrivilegeChunks(ops);
    SplitInTwo(header, op, gated, chunks, eff, bounds, cut);
    var bodies := [chunks[0].ops, chunks[1].ops];
    assert bodies == OpsOf(chunks);
    TwoAnswers(header, op, gated);
    TwoPlaced(header, op, gated);
    v := ValidateChunks(chunks);
    VerdictCases(bodies, v);
    GatesAnswer(bodies, GatesOf(v));
    OneAnswer(bodies, bodies, GatesOf(v), CrossChunkWatch(1, 1, 0));
    ghost var scan;
    r, scan := CrossChunkWatchRefusal(bodies);
    if DepsPlaced(bodies) {
      OneAnswer(bodies, Resources(bodies), scan, DanglingWatch(1, 1, 0));
    }
  }

  lemma {:induction false} SplitInTwo(header: Op, op: Op, gated: Op, chunks: seq<Chunk>, eff: seq<bool>,
                                      bounds: seq<nat>, cut: seq<Chunk>)
    requires HeaderWatched(header, op, gated) && |eff| == 2
    requires forall k: nat :: k < |eff| ==> (eff[k] <==> Promoted([op, gated], k))
    requires Cuts(eff, bounds, |eff|) && CutInto([op, gated], header, eff, bounds, cut) && Hoisted(cut, chunks)
    ensures chunks == [Chunk(false, [header, op]), Chunk(true, [header, gated])]
  {
    hide NegationOk, ServiceOk, Promoted, Cuts, Hoisted;
    var body := [op, gated];
    FlatPromoted(body, 0);
    FlatPromoted(body, 1);
    assert eff == [false, true];
    CutInTwo(eff, bounds);
    assert cut[0] == Chunk(false, [header, op]) && cut[1] == Chunk(true, [header, gated]);
    FlatHoisted(cut, chunks);
  }

  lemma {:induction false} CutInTwo(eff: seq<bool>, bounds: seq<nat>)
    requires eff == [false, true] && Cuts(eff, bounds, |eff|)
    ensures bounds == [0, 1, 2]
  {
    assert !eff[0] && eff[1] && |bounds| > 1;
    assert Part(eff, bounds[0], bounds[1]);
    assert bounds[1] == 1 && |bounds| > 2;
    assert Part(eff, bounds[1], bounds[2]);
    LastCut(eff, bounds, 2);
  }

  lemma {:induction false} TwoPlaced(header: Op, op: Op, gated: Op)
    requires HeaderWatched(header, op, gated)
    ensures var bodies := [[header, op], [header, gated]];
            NegationsOk(bodies) && ServicesOk(bodies) && DepsPlaced(bodies)
  {
    hide NegationOk, ServiceOk;
  }

  lemma {:induction false} TwoAnswers(header: Op, op: Op, gated: Op)
    requires HeaderWatched(header, op, gated)
    ensures var bodies := [[header, op], [header, gated]];
            && Answer(bodies, bodies, CrossChunkWatch(1, 1, 0))
            && Answer(bodies, Resources(bodies), DanglingWatch(1, 1, 0))
  {
    hide NegationOk, ServiceOk;
    var bodies := [[header, op], [header, gated]];
    var carriers := Resources(bodies);
    assert bodies[0][0].id == header.id;
    assert ChunkWith(bodies, header.id) == 0;
    forall c | 0 <= c < |carriers|
      ensures FirstIndex(carriers[c], header.id) < 0
    {
      assert forall o: Op :: o in bodies[c] ==> o == header || o == op || o == gated;
      assert forall o: Op :: o in carriers[c] ==> o in bodies[c] && !IsControlKind(o.kind) && o.id != header.id;
    }
    assert !WatchLocal(bodies, 1, gated.watch[0]) && !WatchLocal(carriers, 1, gated.watch[0]);
  }
}
