/** Sorting and guards: the apply order changes neither what the pre-check
    sees nor which ops run. */
module SortMeaning {
  import opened Ops
  import opened Blocks
  import opened Guards
  import opened Interpreter
  import opened Kahn
  import opened ChunkOrders
  import opened ApplySort
  import opened EndToEnd

  /** The sorted body: out orders the whole body. */
  ghost predicate Reordered(body: seq<Op>, out: seq<nat>) {
    SortedTo(body, out) && |out| == |body| && Permutation(|body|, out)
  }

  lemma {:induction false} SameLine(body: seq<Op>, out: seq<nat>, k: nat)
    requires Reordered(body, out) && k < |body|
    ensures SameControl(body[k], Picked(body, out)[k])
    ensures IsControlKind(body[k].kind) ==> Picked(body, out)[k] == body[k]
  {
    StaysInRun(body, out, k);
  }

  /** The same blocks are open at the same lines. */
  lemma {:induction false} SameOpen(body: seq<Op>, out: seq<nat>, k: nat)
    requires Reordered(body, out) && k <= |body|
    ensures |Picked(body, out)| == |body| && OpenBefore(Picked(body, out), k) == OpenBefore(body, k)
  {
    forall i | 0 <= i < k
      ensures SameControl(body[i], Picked(body, out)[i])
    {
      SameLine(body, out, i);
    }
    hide Reordered;
    OpenPrefix(body, Picked(body, out), k);
  }

  lemma {:induction false} SameActive(body: seq<Op>, out: seq<nat>, facts: Facts, world: seq<Moment>, k: nat)
    requires Reordered(body, out) && |world| == |body| && k <= |body|
    ensures |Picked(body, out)| == |body|
    ensures (Active(Picked(body, out), facts, world, k) <==> Active(body, facts, world, k))
  {
    SameOpen(body, out, k);
    var sorted := Picked(body, out);
    forall i | 0 <= i < |OpenBefore(body, k)|
      ensures GuardAt(sorted, facts, world, OpenBefore(body, k)[i]) ==
              GuardAt(body, facts, world, OpenBefore(body, k)[i])
    {
      SameLine(body, out, OpenBefore(body, k)[i]);
    }
  }

  /** So a guard refuses in the sorted body exactly when it does in the
      recorded one: the pre-check reads both alike. */
  lemma {:induction false} SortKeepsRefusals(body: seq<Op>, out: seq<nat>, facts: Facts, world: seq<Moment>, k: nat)
    requires Reordered(body, out) && |world| == |body| && k < |body|
    ensures |Picked(body, out)| == |body|
    ensures GuardRefuses(Picked(body, out), facts, world, k) <==> GuardRefuses(body, facts, world, k)
  {
    SameActive(body, out, facts, world, k);
    SameLine(body, out, k);
    hide Active, Reordered;
  }

  /** Inside a run the same blocks are open everywhere. */
  lemma {:induction false} OpenAcrossRun(body: seq<Op>, a: nat, b: nat, k: nat)
    requires IsRun(body, a, b) && a <= k <= b
    ensures OpenBefore(body, k) == OpenBefore(body, a)
    decreases k
  {
    if k > a {
      OpenAcrossRun(body, a, b, k - 1);
      assert !IsControlKind(body[k - 1].kind);
    }
  }

  /** The sorted body runs the same ops: the op placed at line k is skipped
      there exactly when it is skipped where it was recorded. */
  lemma {:induction false} SortRunsSameOps(body: seq<Op>, out: seq<nat>, facts: Facts, world: seq<Moment>, k: nat)
    requires Reordered(body, out) && |world| == |body| && k < |body|
    ensures |Picked(body, out)| == |body| && out[k] < |body|
    ensures IsControlKind(Picked(body, out)[k].kind) <==> IsControlKind(body[k].kind)
    ensures Active(Picked(body, out), facts, world, k) <==> Active(body, facts, world, out[k])
  {
    SameActive(body, out, facts, world, k);
    SameLine(body, out, k);
    StaysInRun(body, out, k);
    hide Reordered;
    if !IsControlKind(body[k].kind) {
      var a: nat, b: nat :| IsRun(body, a, b) && a <= k < b && a <= out[k] < b;
      OpenAcrossRun(body, a, b, k);
      OpenAcrossRun(body, a, b, out[k]);
    }
  }
}
