/** Which when-blocks an op lies in, by counting when_begins and when_ends,
    without the stack of open blocks. */
module Enclosing {
  import opened Ops
  import opened Blocks

  /** The when_begins minus the when_ends from line a up to line b. */
  function Net(ops: seq<Op>, a: nat, b: nat): int
    requires a <= b <= |ops|
  {
    if a == b then 0
    else
      Net(ops, a, b - 1) +
      (if ops[b - 1].kind.KindWhenBegin? then 1 else if ops[b - 1].kind.KindWhenEnd? then -1 else 0)
  }

  /** From line a up to line k no more blocks end than begin. */
  ghost predicate StaysIn(ops: seq<Op>, a: nat, k: nat)
    requires a <= k <= |ops|
  {
    forall j :: a <= j <= k ==> Net(ops, a, j) >= 0
  }

  /** The block that begins at i is not closed before line k. */
  ghost predicate Encloses(ops: seq<Op>, i: nat, k: nat) {
    i < k <= |ops| && ops[i].kind.KindWhenBegin? && StaysIn(ops, i + 1, k)
  }

  lemma {:induction false} NetSplit(ops: seq<Op>, a: nat, b: nat, c: nat)
    requires a <= b <= c <= |ops|
    ensures Net(ops, a, c) == Net(ops, a, b) + Net(ops, b, c)
    decreases c
  {
    if b < c {
      NetSplit(ops, a, b, c - 1);
    }
  }

  /** Entry p of the stack has as many blocks open inside it as lie above it. */
  lemma {:induction false} OpenNet(ops: seq<Op>, k: nat, p: nat)
    requires k <= |ops| && p < |OpenBefore(ops, k)|
    ensures Net(ops, OpenBefore(ops, k)[p] + 1, k) == |OpenBefore(ops, k)| - 1 - p
    decreases k
  {
    var open := OpenBefore(ops, k);
    OpenAfter(ops, k - 1);
    var before := OpenBefore(ops, k - 1);
    hide OpenBefore;
    if p < |before| {
      OpenNet(ops, k - 1, p);
    }
  }

  /** The stack holds exactly the blocks that enclose the line. */
  lemma {:induction false} OpenIff(ops: seq<Op>, i: nat, k: nat)
    requires k <= |ops|
    ensures i in OpenBefore(ops, k) <==> Encloses(ops, i, k)
    decreases k
  {
    hide *;
    NothingOpenYet(ops);
    EnclosesRange(ops, i, k);
    if k > 0 {
      OpenIff(ops, i, k - 1);
      EnclosesNext(ops, i, k);
      if ops[k - 1].kind.KindWhenEnd? {
        OpenAtEnd(ops, i, k);
      } else {
        OpenElsewhere(ops, i, k);
      }
    }
  }

  lemma {:induction false} EnclosesRange(ops: seq<Op>, i: nat, k: nat)
    ensures Encloses(ops, i, k) ==> i < k
  {
  }

  /** A when_end closes the innermost block, which is the one with nothing open
      inside it. */
  lemma {:induction false} OpenAtEnd(ops: seq<Op>, i: nat, k: nat)
    requires 0 < k <= |ops| && ops[k - 1].kind.KindWhenEnd?
    ensures i in OpenBefore(ops, k) <==> i in OpenBefore(ops, k - 1) && i < k && Net(ops, i + 1, k) >= 0
  {
    hide *;
    var before, open := OpenBefore(ops, k - 1), OpenBefore(ops, k);
    OpenAfter(ops, k - 1);
    if i in before {
      OpenRises(ops, k - 1);
      var p: nat :| p < |before| && before[p] == i;
      OpenNet(ops, k - 1, p);
      NetEnd(ops, i + 1, k);
      if p < |before| - 1 {
        assert open[p] == i;
      }
    } else {
      assert forall p :: 0 <= p < |open| ==> open[p] == before[p];
    }
  }

  lemma {:induction false} NetEnd(ops: seq<Op>, a: nat, k: nat)
    requires a < k <= |ops| && ops[k - 1].kind.KindWhenEnd?
    ensures Net(ops, a, k) == Net(ops, a, k - 1) - 1
  {
  }

  lemma {:induction false} OpenElsewhere(ops: seq<Op>, i: nat, k: nat)
    requires 0 < k <= |ops| && !ops[k - 1].kind.KindWhenEnd?
    ensures i in OpenBefore(ops, k) <==>
              (i == k - 1 && ops[i].kind.KindWhenBegin?) || i in OpenBefore(ops, k - 1)
    ensures i in OpenBefore(ops, k - 1) ==> i < k && Net(ops, i + 1, k) >= 0
  {
    hide *;
    var before, open := OpenBefore(ops, k - 1), OpenBefore(ops, k);
    OpenAfter(ops, k - 1);
    assert open == before || (ops[k - 1].kind.KindWhenBegin? && open == before + [k - 1]);
    if i in before {
      var p: nat :| p < |before| && before[p] == i;
      OpenNet(ops, k - 1, p);
      NetElsewhere(ops, i + 1, k);
    }
  }

  lemma {:induction false} NetElsewhere(ops: seq<Op>, a: nat, k: nat)
    requires a < k <= |ops| && !ops[k - 1].kind.KindWhenEnd?
    ensures Net(ops, a, k) >= Net(ops, a, k - 1)
  {
  }

  lemma {:induction false} OpenRises(ops: seq<Op>, k: nat)
    requires k <= |ops|
    ensures forall i, j :: 0 <= i < j < |OpenBefore(ops, k)| ==> OpenBefore(ops, k)[i] < OpenBefore(ops, k)[j]
  {
  }

  lemma {:induction false} EnclosesNext(ops: seq<Op>, i: nat, k: nat)
    requires 0 < k <= |ops|
    ensures Encloses(ops, i, k) <==>
              (i == k - 1 && ops[i].kind.KindWhenBegin?) || (Encloses(ops, i, k - 1) && Net(ops, i + 1, k) >= 0)
  {
  }

  /** The when_end j closes the when_begin i exactly when as many blocks begin
      as end in between, and none of them ends outside. */
  lemma {:induction false} MatchedIff(ops: seq<Op>, i: nat, j: nat)
    ensures Matched(ops, i, j) <==>
              j < |ops| && ops[j].kind.KindWhenEnd? && Encloses(ops, i, j) && Net(ops, i + 1, j) == 0
  {
    if j < |ops| {
      var open := OpenBefore(ops, j);
      OpenIff(ops, i, j);
      hide OpenBefore;
      if i in open {
        var p: nat :| p < |open| && open[p] == i;
        OpenNet(ops, j, p);
        OpenRises(ops, j);
      }
    }
  }

  lemma {:induction false} StackNet(ops: seq<Op>, k: nat)
    requires k <= |ops| && forall j :: 0 <= j < k && ops[j].kind.KindWhenEnd? ==> OpenBefore(ops, j) != []
    ensures Net(ops, 0, k) == |OpenBefore(ops, k)|
  {
    if k > 0 {
      StackNet(ops, k - 1);
      DepthStep(ops, k - 1);
    }
  }

  /** In a balanced body no more blocks ever end than have begun. */
  lemma {:induction false} BalancedNet(ops: seq<Op>, k: nat)
    requires Balanced(ops) && k <= |ops|
    ensures Net(ops, 0, k) >= 0
  {
    StackNet(ops, k);
  }

  /** Counting in a part of a list. */
  lemma {:induction false} NetInPart(ops: seq<Op>, a: nat, b: nat, k: nat)
    requires a <= b <= |ops| && k <= b - a
    ensures Net(ops[a..b], 0, k) == Net(ops, a, a + k)
    decreases k
  {
    if k > 0 {
      NetInPart(ops, a, b, k - 1);
      assert ops[a..b][k - 1] == ops[a + k - 1];
    }
  }
}
