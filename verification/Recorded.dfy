/** The list of recorded ops and its one in-place change: plan/record.go. */
module Recorded {
  import opened Ops
  import opened Blocks
  import opened DepGraphs
  import opened Splits
  import opened ChunkChecks
  import opened ApplySort

  datatype Amendment = Amended | Nothing | BehindControl(at: nat) | BehindOther(at: nat) | AmendError | OtherPrivilege

  /** The last op carrying id, or -1. */
  function LastIndex(ops: seq<Op>, id: string): (at: int)
    ensures -1 <= at < |ops|
    ensures at >= 0 ==> ops[at].id == id
    ensures forall k :: at < k < |ops| ==> ops[k].id != id
  {
    if ops == [] then -1
    else if ops[|ops| - 1].id == id then |ops| - 1
    else
      var at := LastIndex(ops[..|ops| - 1], id);
      assert forall k :: 0 <= k < |ops| - 1 ==> ops[..|ops| - 1][k] == ops[k];
      at
  }

  /** Nothing but resource ops of the target's class came after it. */
  predicate RunAfter(ops: seq<Op>, at: nat) {
    at < |ops| && forall k :: at < k < |ops| ==> !IsControlKind(ops[k].kind) && ops[k].elevate == ops[at].elevate
  }

  class Recorder {
    var recording: bool
    var recorded: seq<Op>

    /** Record appends while recording is on. */
    method Record(op: Op)
      modifies this`recorded
      ensures recorded == old(recorded) + if recording then [op] else []
      ensures old(recorded) <= recorded
    {
      if !recording {
        return;
      }
      recorded := recorded + [op];
    }

    /** checkAmendableRun: the first op behind the target that is in the way. */
    method CheckAmendableRun(at: nat) returns (bad: Option<nat>)
      requires at < |recorded|
      ensures bad.None? <==> RunAfter(recorded, at)
      ensures bad.Some? ==>
                && at < bad.value < |recorded|
                && (IsControlKind(recorded[bad.value].kind) || recorded[bad.value].elevate != recorded[at].elevate)
    {
      for k := at + 1 to |recorded|
        invariant forall j :: at < j < k ==>
                    !IsControlKind(recorded[j].kind) && recorded[j].elevate == recorded[at].elevate
      {
        if IsControlKind(recorded[k].kind) || recorded[k].elevate != recorded[at].elevate {
          return Some(k);
        }
      }
      bad := None;
    }

    /** AmendRecorded: replaces the last op carrying id by amend's result, or
        changes nothing. */
    method AmendRecorded(id: string, amend: Op -> Option<Op>) returns (r: Amendment)
      modifies this`recorded
      ensures r.Nothing? <==> !recording || LastIndex(old(recorded), id) < 0
      ensures !r.Amended? ==> recorded == old(recorded)
      ensures var at := LastIndex(old(recorded), id);
              recording && at >= 0 ==>
                (r.Amended? <==> RunAfter(old(recorded), at) && amend(old(recorded)[at]).Some? &&
                                 amend(old(recorded)[at]).value.elevate == old(recorded)[at].elevate) &&
                (r.Amended? ==> recorded == old(recorded)[at := amend(old(recorded)[at]).value])
    {
      if !recording {
        return Nothing;
      }
      var at := -1;
      for i := |recorded| downto 0
        invariant at == -1 && forall k :: i <= k < |recorded| ==> recorded[k].id != id
      {
        if recorded[i].id == id {
          at := i;
          break;
        }
      }
      if at < 0 {
        return Nothing;
      }
      var bad := CheckAmendableRun(at);
      if bad.Some? {
        return if IsControlKind(recorded[bad.value].kind) then BehindControl(bad.value) else BehindOther(bad.value);
      }
      var op := amend(recorded[at]);
      if op.None? {
        return AmendError;
      }
      if op.value.elevate != recorded[at].elevate {
        return OtherPrivilege;
      }
      recorded := recorded[at := op.value];
      r := Amended;
    }
  }

  /** Ops a to b - 1 are resource ops of one class. */
  predicate OneRun(ops: seq<Op>, a: nat, b: nat) {
    a < b <= |ops| && forall k :: a <= k < b ==> !IsControlKind(ops[k].kind) && ops[k].elevate == ops[a].elevate
  }

  /** A block around one op of a run is around all of it. */
  lemma {:induction false} RunInBlock(ops: seq<Op>, a: nat, b: nat, k: nat, m: nat)
    requires OneRun(ops, a, b) && a <= k < b && a <= m < b && Promoted(ops, k)
    ensures Promoted(ops, m)
  {
    var e: nat :| e < |ops| && ops[e].elevate && SameBlock(ops, |ops|, k, e);
    if k == e {
      assert ops[m].elevate && SameBlock(ops, |ops|, m, m);
    } else {
      var i: nat, j: nat :| Matched(ops, i, j) && j < |ops| && i <= k <= j && i <= e <= j;
      MatchedBegins(ops, i, j);
      assert i < a && b <= j by {
        assert IsControlKind(ops[i].kind) && IsControlKind(ops[j].kind);
      }
      hide Matched;
      assert SameBlock(ops, |ops|, m, e);
    }
  }

  /** Whatever is recorded next, the target and the ops recorded after it are
      cut into one privilege chunk. */
  lemma {:induction false} AmendedSameChunk(recorded: seq<Op>, more: seq<Op>, at: nat, eff: seq<bool>,
                                            bounds: seq<nat>, c: nat, k: nat)
    requires RunAfter(recorded, at) && !IsControlKind(recorded[at].kind) && recorded <= more
    requires |eff| == |more| && (forall i: nat :: i < |more| ==> (eff[i] <==> Promoted(more, i)))
    requires Cuts(eff, bounds, |more|)
    requires c < |bounds| - 1 && bounds[c] <= at < bounds[c + 1] && at <= k < |recorded|
    ensures bounds[c] <= k < bounds[c + 1] <= |more|
  {
    assert OneRun(more, at, |recorded|);
    forall i: nat | at <= i < |recorded|
      ensures eff[i] == eff[at]
    {
      if Promoted(more, i) {
        RunInBlock(more, at, |recorded|, i, at);
      }
      if Promoted(more, at) {
        RunInBlock(more, at, |recorded|, at, i);
      }
    }
    hide Promoted;
    assert Part(eff, bounds[c], bounds[c + 1]);
    if k >= bounds[c + 1] {
      NextPart(eff, bounds, |more|, c);
    }
  }

  lemma {:induction false} NextPart(eff: seq<bool>, bounds: seq<nat>, limit: nat, c: nat)
    requires Cuts(eff, bounds, limit) && c < |bounds| - 1 && bounds[c + 1] < limit
    ensures c + 1 < |bounds| - 1 && Part(eff, bounds[c + 1], bounds[c + 2])
  {
  }

  /** So a new dep or watch of the target on an op recorded after it is never
      refused for crossing a boundary: the chunk check finds the dep in place,
      the watch local if no earlier chunk carries the same ID, and the sort
      never calls the dep too late. */
  lemma {:induction false} AmendedNeverRefused(recorded: seq<Op>, more: seq<Op>, at: nat, eff: seq<bool>,
                                               bounds: seq<nat>, c: nat,
                                              k: nat, bodies: seq<seq<Op>>, a: nat, b: nat)
    requires RunAfter(recorded, at) && !IsControlKind(recorded[at].kind) && recorded <= more
    requires |eff| == |more| && (forall i: nat :: i < |more| ==> (eff[i] <==> Promoted(more, i)))
    requires Cuts(eff, bounds, |more|)
    requires c < |bounds| - 1 && bounds[c] <= at < bounds[c + 1] && at < k < |recorded| && recorded[k].id != ""
    requires |bodies| == |bounds| - 1 && bounds[c + 1] <= |more|
    requires forall i :: bounds[c] <= i < bounds[c + 1] ==> more[i] in bodies[c]
    requires IsRun(more, a, b) && a <= at < b
    ensures DepPlaced(bodies, c, recorded[k].id)
    ensures (forall d :: 0 <= d < c ==> FirstIndex(bodies[d], recorded[k].id) < 0) ==>
              WatchLocal(bodies, c, recorded[k].id)
    ensures a <= k < b && !CarriedLater(more, b, recorded[k].id)
  {
    AmendedSameChunk(recorded, more, at, eff, bounds, c, k);
    hide Cuts, Promoted;
    assert more[k] == recorded[k] && more[k] in bodies[c];
    assert FirstIndex(bodies[c], recorded[k].id) >= 0;
  }
}
