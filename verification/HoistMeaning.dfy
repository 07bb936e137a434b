/** The requirement stubs in the plan's own ops: what a stub copies, and in
    which order the stubs of a plan stand. */
module HoistMeaning {
  import opened Ops
  import opened Blocks
  import opened Enclosing
  import opened Splits
  import opened Requirements
  import opened GuardMeaning

  /** blocks are the blocks around line k, outermost first. */
  ghost predicate BlocksAround(ops: seq<Op>, k: nat, blocks: seq<nat>) {
    && (forall i, j :: 0 <= i < j < |blocks| ==> blocks[i] < blocks[j])
    && (forall i: nat :: i in blocks <==> Encloses(ops, i, k))
  }

  /** stub is an empty copy of requirement k: the blocks around it, the
      requirement itself, and a bare when_end for each of these. */
  ghost predicate CopiesRequirement(ops: seq<Op>, k: nat, stub: seq<Op>, blocks: seq<nat>)
    requires k < |ops|
  {
    && BlocksAround(ops, k, blocks) && |stub| == 2 * |blocks| + 2
    && (forall i :: 0 <= i < |blocks| ==> blocks[i] < |ops| && stub[i] == ops[blocks[i]])
    && stub[|blocks|] == ops[k]
    && (forall i :: |blocks| < i < |stub| ==> BareEnd(stub[i]))
  }

  /** A when_end that carries nothing. */
  predicate BareEnd(op: Op) {
    && op.kind.KindWhenEnd? && op.id == "" && !op.elevate && op.deps == [] && !op.ifChanged && op.watch == []
    && op.all == [] && op.require == ""
  }

  /** Every requirement in scope has such a copy; nothing else has any. */
  lemma {:induction false} StubMeans(ops: seq<Op>, k: nat)
    requires k < |ops|
    ensures Requires(ops[k]) && InScope(ops, k) ==>
              CopiesRequirement(ops, k, StubAt(ops, k), OpenBefore(ops, k))
    ensures !(Requires(ops[k]) && InScope(ops, k)) ==> StubAt(ops, k) == []
  {
    if Requires(ops[k]) {
      ChainMeans(ops, k);
      hide HostChain, InScope, CopiesRequirement;
      if InScope(ops, k) {
        CopyMeans(ops, k);
      }
    }
  }

  lemma {:induction false} CopyMeans(ops: seq<Op>, k: nat)
    requires k < |ops| && ops[k].kind.KindWhenBegin?
    ensures CopiesRequirement(ops, k, Stub(Chain(ops, k)), OpenBefore(ops, k))
  {
    var blocks, chain := OpenBefore(ops, k), Chain(ops, k);
    hide OpenBefore, Chain, Encloses;
    ChainEnds(ops, k);
    OpenRises(ops, k);
    forall i: nat
      ensures i in blocks <==> Encloses(ops, i, k)
    {
      OpenIff(ops, i, k);
    }
  }

  /** Within a chunk the stubs stand in the order of their requirements. */
  lemma {:induction false} StubsInOrder(ops: seq<Op>, n: nat, i: nat, j: nat)
    returns (front: seq<Op>, between: seq<Op>, back: seq<Op>)
    requires i < j < n <= |ops|
    ensures Stubs(ops, n) == front + StubAt(ops, i) + between + StubAt(ops, j) + back
  {
    hide StubAt;
    if j < n - 1 {
      front, between, back := StubsInOrder(ops, n - 1, i, j);
      back := back + StubAt(ops, n - 1);
    } else {
      front, between := StubOfRequirement(ops, n - 1, i);
      back := [];
    }
  }

  lemma {:induction false} StubOfRequirement(ops: seq<Op>, n: nat, i: nat) returns (front: seq<Op>, back: seq<Op>)
    requires i < n <= |ops|
    ensures Stubs(ops, n) == front + StubAt(ops, i) + back
  {
    hide StubAt;
    if i < n - 1 {
      front, back := StubOfRequirement(ops, n - 1, i);
      back := back + StubAt(ops, n - 1);
    } else {
      front, back := Stubs(ops, n - 1), [];
    }
  }

  /** What is hoisted before chunk k holds the stubs of each later chunk, in
      chunk order. */
  lemma {:induction false} PendingInOrder(chunks: seq<Chunk>, k: nat, c: nat, d: nat)
    returns (front: seq<Op>, between: seq<Op>, back: seq<Op>)
    requires k <= c < d < |chunks|
    ensures Pending(chunks, k) ==
            front + Stubs(chunks[c].ops, |chunks[c].ops|) + between + Stubs(chunks[d].ops, |chunks[d].ops|) + back
    decreases d - k
  {
    hide Stubs;
    var own := Stubs(chunks[k].ops, |chunks[k].ops|);
    if k < c {
      front, between, back := PendingInOrder(chunks, k + 1, c, d);
      front := own + front;
    } else {
      between, back := PendingOfChunk(chunks, k + 1, d);
      front := [];
    }
  }

  lemma {:induction false} PendingOfChunk(chunks: seq<Chunk>, k: nat, c: nat) returns (front: seq<Op>, back: seq<Op>)
    requires k <= c < |chunks|
    ensures Pending(chunks, k) == front + Stubs(chunks[c].ops, |chunks[c].ops|) + back
    decreases c - k
  {
    hide Stubs;
    if k < c {
      front, back := PendingOfChunk(chunks, k + 1, c);
      front := Stubs(chunks[k].ops, |chunks[k].ops|) + front;
    } else {
      front, back := [], Pending(chunks, k + 1);
    }
  }
}
