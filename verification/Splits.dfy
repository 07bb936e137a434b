/** Privilege chunks: plan/split.go without the requirement stubs. */
module Splits {
  import opened Ops
  import opened Blocks

  /** Ops k and e are the same or lie in one matched block. */
  ghost predicate SameBlock(ops: seq<Op>, limit: nat, k: nat, e: nat) {
    k == e || exists i: nat, j: nat :: Matched(ops, i, j) && j < limit && i <= k <= j && i <= e <= j
  }

  /** Op k, or a matched block around it that is closed before limit, holds an
      elevated op. */
  ghost predicate PromotedBy(ops: seq<Op>, limit: nat, k: nat) {
    exists e :: 0 <= e < |ops| && ops[e].elevate && SameBlock(ops, limit, k, e)
  }

  ghost predicate Promoted(ops: seq<Op>, k: nat) {
    PromotedBy(ops, |ops|, k)
  }

  ghost predicate PromotedTo(ops: seq<Op>, limit: nat, eff: seq<bool>) {
    |eff| == |ops| && forall k: nat :: k < |ops| ==> (eff[k] <==> PromotedBy(ops, limit, k))
  }

  lemma {:induction false} SameBlockLater(ops: seq<Op>, limit: nat, more: nat, k: nat, e: nat)
    requires limit <= more && SameBlock(ops, limit, k, e)
    ensures SameBlock(ops, more, k, e)
  {
    if k != e {
      var i: nat, j: nat :| Matched(ops, i, j) && j < limit && i <= k <= j && i <= e <= j;
      assert j < more;
    }
  }

  /** A block closed now that holds a promoted op holds an elevated one: the
      blocks that promoted the op are inside. */
  lemma {:induction false} BlockNeeds(ops: seq<Op>, start: nat, end: nat, k: nat) returns (e: nat)
    requires Matched(ops, start, end) && start <= k <= end && PromotedBy(ops, end, k)
    ensures start <= e <= end && ops[e].elevate
  {
    e :| 0 <= e < |ops| && ops[e].elevate && SameBlock(ops, end, k, e);
    if k != e {
      var i: nat, j: nat :| Matched(ops, i, j) && j < end && i <= k <= j && i <= e <= j;
      Nested(ops, start, end, i, j);
    }
  }

  lemma {:induction false} SameBlockEarlier(ops: seq<Op>, end: nat, k: nat, e: nat)
    requires SameBlock(ops, end + 1, k, e) && forall i: nat :: !Matched(ops, i, end)
    ensures SameBlock(ops, end, k, e)
  {
    if k != e {
      var i: nat, j: nat :| Matched(ops, i, j) && j < end + 1 && i <= k <= j && i <= e <= j;
      hide Matched;
      assert j < end;
    }
  }

  lemma {:induction false} NotClosing(ops: seq<Op>, end: nat, eff: seq<bool>)
    requires end < |ops| && PromotedTo(ops, end, eff) && forall i: nat :: !Matched(ops, i, end)
    ensures PromotedTo(ops, end + 1, eff)
  {
    hide SameBlock, Matched;
    forall k: nat | k < |ops|
      ensures PromotedBy(ops, end, k) <==> PromotedBy(ops, end + 1, k)
    {
      if PromotedBy(ops, end, k) {
        var e: nat :| e < |ops| && ops[e].elevate && SameBlock(ops, end, k, e);
        SameBlockLater(ops, end, end + 1, k, e);
      }
      if PromotedBy(ops, end + 1, k) {
        var e: nat :| e < |ops| && ops[e].elevate && SameBlock(ops, end + 1, k, e);
        SameBlockEarlier(ops, end, k, e);
      }
    }
  }

  /** Closing a block promotes all of it when any op in it is promoted. */
  lemma {:induction false} Closing(ops: seq<Op>, start: nat, end: nat, eff: seq<bool>, need: bool, next: seq<bool>)
    requires Matched(ops, start, end) && PromotedTo(ops, end, eff) && |next| == |eff|
    requires need <==> exists k :: start <= k <= end && eff[k]
    requires forall k :: 0 <= k < |eff| ==> next[k] == (eff[k] || (need && start <= k <= end))
    ensures PromotedTo(ops, end + 1, next)
  {
    forall k: nat | k < |ops|
      ensures next[k] <==> PromotedBy(ops, end + 1, k)
    {
      if next[k] {
        PromotedNow(ops, start, end, eff, k);
      }
      if PromotedBy(ops, end + 1, k) {
        PromotedBefore(ops, start, end, eff, k);
      }
    }
  }

  lemma {:induction false} PromotedNow(ops: seq<Op>, start: nat, end: nat, eff: seq<bool>, k: nat)
    requires Matched(ops, start, end) && PromotedTo(ops, end, eff) && k < |ops|
    requires eff[k] || (start <= k <= end && exists m :: start <= m <= end && eff[m])
    ensures PromotedBy(ops, end + 1, k)
  {
    if eff[k] {
      var e: nat :| e < |ops| && ops[e].elevate && SameBlock(ops, end, k, e);
      SameBlockLater(ops, end, end + 1, k, e);
    } else {
      var m: nat :| start <= m <= end && eff[m];
      var e := BlockNeeds(ops, start, end, m);
      assert SameBlock(ops, end + 1, k, e);
    }
  }

  lemma {:induction false} SameBlockNow(ops: seq<Op>, start: nat, end: nat, k: nat, e: nat)
    requires Matched(ops, start, end) && SameBlock(ops, end + 1, k, e)
    ensures SameBlock(ops, end, k, e) || (start <= k <= end && start <= e <= end)
  {
    if k != e {
      var i: nat, j: nat :| Matched(ops, i, j) && j < end + 1 && i <= k <= j && i <= e <= j;
      if j == end {
        SameEnd(ops, start, end, i);
      } else {
        hide Matched;
        assert j < end;
      }
    }
  }

  lemma {:induction false} PromotedBefore(ops: seq<Op>, start: nat, end: nat, eff: seq<bool>, k: nat)
    requires Matched(ops, start, end) && PromotedTo(ops, end, eff) && k < |ops|
    requires PromotedBy(ops, end + 1, k)
    ensures eff[k] || (start <= k <= end && exists m :: start <= m <= end && eff[m])
  {
    var e: nat :| e < |ops| && ops[e].elevate && SameBlock(ops, end + 1, k, e);
    SameBlockNow(ops, start, end, k, e);
    assert SameBlock(ops, end, e, e);
    hide SameBlock, Matched;
    assert eff[e];
  }

  /** effectiveElevate: an op is elevated in effect exactly when it or a
      matched block around it holds an elevated op. */
  method EffectiveElevate(body: seq<Op>) returns (eff: seq<bool>)
    ensures |eff| == |body| && forall k: nat :: k < |body| ==> (eff[k] <==> Promoted(body, k))
  {
    hide PromotedTo, Matched;
    eff := Classes(body);
    StartPromoted(body);
    var stack: seq<nat> := [];
    for i := 0 to |body|
      invariant |eff| == |body| && PromotedTo(body, i, eff) && stack == OpenBefore(body, i)
    {
      MatchedLast(body, i);
      if body[i].kind.KindWhenBegin? {
        NotClosing(body, i, eff);
        stack := stack + [i];
      } else if body[i].kind.KindWhenEnd? {
        if |stack| == 0 {
          NotClosing(body, i, eff);
          continue;
        }
        var start := stack[|stack| - 1];
        stack := stack[..|stack| - 1];
        ghost var was := eff;
        var need := false;
        for j := start to i + 1
          invariant need <==> exists k :: start <= k < j && eff[k]
        {
          if eff[j] {
            need := true;
            break;
          }
        }
        if need {
          for j := start to i + 1
            invariant |eff| == |was| && forall k :: 0 <= k < |eff| ==> eff[k] == (was[k] || start <= k < j)
          {
            eff := eff[j := true];
          }
        }
        Closing(body, start, i, was, need, eff);
      } else {
        NotClosing(body, i, eff);
      }
    }
    AllPromoted(body, eff);
  }

  lemma {:induction false} StartPromoted(body: seq<Op>)
    ensures PromotedTo(body, 0, Classes(body))
  {
    forall k: nat | k < |body|
      ensures body[k].elevate <==> PromotedBy(body, 0, k)
    {
      assert SameBlock(body, 0, k, k);
    }
  }

  predicate LastOpen(body: seq<Op>, i: nat, k: nat)
    requires i < |body|
  {
    var open := OpenBefore(body, i);
    body[i].kind.KindWhenEnd? && open != [] && open[|open| - 1] == k
  }

  lemma {:induction false} MatchedLast(body: seq<Op>, i: nat)
    requires i < |body|
    ensures forall k: nat :: Matched(body, k, i) ==> body[i].kind.KindWhenEnd?
    ensures forall k: nat :: Matched(body, k, i) <==> LastOpen(body, i, k)
  {
  }

  lemma {:induction false} AllPromoted(body: seq<Op>, eff: seq<bool>)
    requires PromotedTo(body, |body|, eff)
    ensures forall k: nat :: k < |body| ==> (eff[k] <==> Promoted(body, k))
  {
  }

  /** All ops of a matched block have one effective class. */
  lemma {:induction false} BlockUniform(ops: seq<Op>, i: nat, j: nat, k: nat, m: nat)
    requires Matched(ops, i, j) && i <= k <= j && i <= m <= j
    ensures Promoted(ops, k) <==> Promoted(ops, m)
  {
    if Promoted(ops, k) {
      PromotesBlock(ops, i, j, k, m);
    }
    if Promoted(ops, m) {
      PromotesBlock(ops, i, j, m, k);
    }
  }

  lemma {:induction false} PromotesBlock(ops: seq<Op>, i: nat, j: nat, k: nat, m: nat)
    requires Matched(ops, i, j) && i <= k <= j && i <= m <= j && Promoted(ops, k)
    ensures Promoted(ops, m)
  {
    var e: nat :| e < |ops| && ops[e].elevate && SameBlock(ops, |ops|, k, e);
    if k == e {
      assert SameBlock(ops, |ops|, m, e);
    } else {
      var a: nat, b: nat :| Matched(ops, a, b) && b < |ops| && a <= k <= b && a <= e <= b;
      if b < j {
        Nested(ops, i, j, a, b);
        assert SameBlock(ops, |ops|, m, e);
      } else if b > j {
        Nested(ops, a, b, i, j);
        assert SameBlock(ops, |ops|, m, e);
      } else {
        SameEnd(ops, i, j, a);
        assert SameBlock(ops, |ops|, m, e);
      }
    }
  }

  /** One privilege chunk: the ops of one process, header first. */
  datatype Chunk = Chunk(elevate: bool, ops: seq<Op>)

  function OpsOf(chunks: seq<Chunk>): (bodies: seq<seq<Op>>)
    ensures |bodies| == |chunks| && forall c :: 0 <= c < |chunks| ==> bodies[c] == chunks[c].ops
  {
    seq(|chunks|, c requires 0 <= c < |chunks| => chunks[c].ops)
  }

  /** Entries a to b are a maximal run of equal eff that begins at a. */
  ghost predicate Part(eff: seq<bool>, a: nat, b: nat) {
    && a < b <= |eff| && (forall k :: a <= k < b ==> eff[k] == eff[a])
    && (a > 0 ==> eff[a] != eff[a - 1])
  }

  /** bounds cut the first limit entries into such runs. */
  ghost predicate Cuts(eff: seq<bool>, bounds: seq<nat>, limit: nat) {
    && |bounds| >= 1 && bounds[0] == 0 && bounds[|bounds| - 1] == limit <= |eff|
    && (forall c :: 0 <= c < |bounds| - 1 ==> Part(eff, bounds[c], bounds[c + 1]))
  }

  /** Nothing is cut behind the last op. */
  lemma {:induction false} LastCut(eff: seq<bool>, bounds: seq<nat>, c: nat)
    requires Cuts(eff, bounds, |eff|) && c < |bounds| && bounds[c] == |eff|
    ensures |bounds| == c + 1
  {
    assert c + 1 < |bounds| ==> Part(eff, bounds[c], bounds[c + 1]);
  }

  function PartOf(body: seq<Op>, bounds: seq<nat>, c: nat): seq<Op>
    requires c < |bounds| - 1 && bounds[c] <= bounds[c + 1] <= |body|
  {
    body[bounds[c]..bounds[c + 1]]
  }

  /** chunks are body cut at bounds, header in front of each part. */
  ghost predicate CutInto(body: seq<Op>, header: Op, eff: seq<bool>, bounds: seq<nat>, chunks: seq<Chunk>)
    requires |eff| == |body|
  {
    |chunks| == |bounds| - 1 &&
    forall c :: 0 <= c < |chunks| ==>
      Part(eff, bounds[c], bounds[c + 1]) && chunks[c] == Chunk(eff[bounds[c]], [header] + PartOf(body, bounds, c))
  }

  /** The header of a plan file without one. */
  function BareOp(kind: Kind): Op {
    Op(kind, "", false, [], false, [], [], "", false, None, [])
  }

  function HeaderOf(ops: seq<Op>): Op {
    if ops != [] && ops[0].kind.KindPlan? then ops[0] else BareOp(KindPlan)
  }

  function BodyOf(ops: seq<Op>): seq<Op> {
    if ops != [] && ops[0].kind.KindPlan? then ops[1..] else ops
  }

  /** A chunk's header always has an ID. */
  function ChunkHeader(header: Op): Op {
    if header.id == "" then header.(id := "chunk") else header
  }

  lemma {:induction false} CutNext(body: seq<Op>, header: Op, eff: seq<bool>, bounds: seq<nat>, chunks: seq<Chunk>,
                                   start: nat, i: nat)
    requires |eff| == |body| && Cuts(eff, bounds, start) && CutInto(body, header, eff, bounds, chunks)
    requires Part(eff, start, i)
    ensures Cuts(eff, bounds + [i], i)
    ensures CutInto(body, header, eff, bounds + [i], chunks + [Chunk(eff[start], [header] + body[start..i])])
  {
    hide Part;
    var more := bounds + [i];
    forall c | 0 <= c < |more| - 1
      ensures Part(eff, more[c], more[c + 1])
    {
      if c < |bounds| - 1 {
        assert Part(eff, bounds[c], bounds[c + 1]);
      }
    }
    PartRange(eff);
    assert body[start..i] == PartOf(body, more, |more| - 2);
  }

  lemma {:induction false} PartRange(eff: seq<bool>)
    ensures forall a: nat, b: nat :: Part(eff, a, b) ==> a < b <= |eff|
  {
  }

  /** The cutting loop of SplitPrivilegeChunks on a non-empty body. */
  method CutChunks(body: seq<Op>, header: Op, eff: seq<bool>) returns (chunks: seq<Chunk>, ghost bounds: seq<nat>)
    requires |body| > 0 && |eff| == |body|
    ensures Cuts(eff, bounds, |body|) && CutInto(body, ChunkHeader(header), eff, bounds, chunks)
  {
    hide Cuts, CutInto;
    chunks, bounds := [], [0];
    NothingCut(body, ChunkHeader(header), eff);
    var start, cur := 0, eff[0];
    for i := 1 to |body| + 1
      invariant Cuts(eff, bounds, if i <= |body| then start else |body|)
      invariant CutInto(body, ChunkHeader(header), eff, bounds, chunks)
      invariant i <= |body| ==> start < i && cur == eff[start] && (start > 0 ==> eff[start] != eff[start - 1])
      invariant i <= |body| ==> forall k :: start <= k < i ==> eff[k] == cur
    {
      if i < |body| && eff[i] == cur {
        continue;
      }
      CutNext(body, ChunkHeader(header), eff, bounds, chunks, start, i);
      chunks := chunks + [Chunk(cur, [ChunkHeader(header)] + body[start..i])];
      bounds := bounds + [i];
      if i < |body| {
        start, cur := i, eff[i];
      }
    }
  }

  lemma {:induction false} NothingCut(body: seq<Op>, header: Op, eff: seq<bool>)
    requires |eff| == |body|
    ensures Cuts(eff, [0], 0) && CutInto(body, header, eff, [0], [])
  {
  }

  /** No matched block is cut. */
  lemma {:induction false} BlocksUncut(body: seq<Op>, eff: seq<bool>, bounds: seq<nat>, c: nat, i: nat, j: nat)
    requires |eff| == |body| && Cuts(eff, bounds, |body|) && 0 < c < |bounds| - 1 && Matched(body, i, j)
    requires forall k: nat :: k < |body| ==> (eff[k] <==> Promoted(body, k))
    ensures !(i < bounds[c] <= j)
  {
    assert Part(eff, bounds[c], bounds[c + 1]);
    if i < bounds[c] <= j {
      BlockUniform(body, i, j, bounds[c] - 1, bounds[c]);
    }
  }

  /** In a balanced body no block is open where a chunk begins or ends. */
  lemma {:induction false} CutsOutside(body: seq<Op>, eff: seq<bool>, bounds: seq<nat>, c: nat)
    requires |eff| == |body| && Cuts(eff, bounds, |body|) && c < |bounds| && Balanced(body)
    requires forall k: nat :: k < |body| ==> (eff[k] <==> Promoted(body, k))
    ensures bounds[c] <= |body| && OpenBefore(body, bounds[c]) == []
  {
    if c < |bounds| - 1 {
      assert Part(eff, bounds[c], bounds[c + 1]);
    }
    var open := OpenBefore(body, bounds[c]);
    if c < |bounds| - 1 && open != [] {
      var i := open[0];
      var j := ClosedBetween(body, i, bounds[c], |body|);
      BlocksUncut(body, eff, bounds, c, i, j);
    }
  }
}
