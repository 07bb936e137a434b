/** Splitting preserves meaning: the chunks run one after the other do what the
    unsplit body does, and the requirement stubs change none of it. */
module SplitMeaning {
  import opened Ops
  import opened Blocks
  import opened Guards
  import opened Interpreter
  import opened Splits
  import opened Requirements

  function Shifted(s: seq<nat>, a: nat): (t: seq<nat>)
    ensures |t| == |s| && forall i :: 0 <= i < |s| ==> t[i] == s[i] + a
  {
    seq(|s|, i requires 0 <= i < |s| => s[i] + a)
  }

  function ShiftEnd(end: End, a: nat): End {
    match end
    case Finished => Finished
    case Unclosed => Unclosed
    case Cancelled(at) => Cancelled(at + a)
    case GuardError(at) => GuardError(at + a)
    case Unmet(at) => Unmet(at + a)
    case NoBegin(at) => NoBegin(at + a)
    case SecondHeader(at) => SecondHeader(at + a)
    case OpFailed(at) => OpFailed(at + a)
  }

  /** A stretch of the body that begins where no block is open. */
  ghost predicate Stretch(ops: seq<Op>, world: seq<Moment>, a: nat, b: nat) {
    |ops| == |world| && a <= b <= |ops| && OpenBefore(ops, a) == []
  }

  lemma {:induction false} ShiftActive(ops: seq<Op>, facts: Facts, world: seq<Moment>, a: nat, b: nat, k: nat)
    requires Stretch(ops, world, a, b) && k <= b - a
    ensures Active(ops[a..b], facts, world[a..b], k) <==> Active(ops, facts, world, a + k)
    ensures OpenBefore(ops[a..b], k) == [] <==> OpenBefore(ops, a + k) == []
  {
    hide OpenBefore, GuardAt;
    OpenInPart(ops, a, b, k);
    var open, part := OpenBefore(ops, a + k), OpenBefore(ops[a..b], k);
    forall i | 0 <= i < |part|
      ensures GuardAt(ops[a..b], facts, world[a..b], part[i]) == GuardAt(ops, facts, world, open[i])
    {
      ShiftGuard(ops, facts, world, a, b, part[i]);
    }
  }

  lemma {:induction false} ShiftLine(ops: seq<Op>, facts: Facts, world: seq<Moment>, a: nat, b: nat, k: nat)
    requires Stretch(ops, world, a, b) && k < b - a
    ensures LineEnd(ops, facts, world, a + k) == ShiftEnd(LineEnd(ops[a..b], facts, world[a..b], k), a)
    ensures GuardRefuses(ops, facts, world, a + k) <==> GuardRefuses(ops[a..b], facts, world[a..b], k)
  {
    hide Active, OpenBefore, GuardAt;
    ShiftActive(ops, facts, world, a, b, k);
    ShiftGuard(ops, facts, world, a, b, k);
  }

  lemma {:induction false} ShiftGuard(ops: seq<Op>, facts: Facts, world: seq<Moment>, a: nat, b: nat, k: nat)
    requires |ops| == |world| && a <= b <= |ops| && k < b - a
    ensures ops[a..b][k] == ops[a + k] && world[a..b][k] == world[a + k]
    ensures GuardAt(ops[a..b], facts, world[a..b], k) == GuardAt(ops, facts, world, a + k)
  {
  }

  lemma {:induction false} ShiftExecuted(ops: seq<Op>, facts: Facts, world: seq<Moment>, a: nat, b: nat, k: nat)
    requires Stretch(ops, world, a, b) && k <= b - a
    ensures Executed(ops, facts, world, a + k) ==
            Executed(ops, facts, world, a) + Shifted(Executed(ops[a..b], facts, world[a..b], k), a)
  {
    hide Active, OpenBefore;
    if k > 0 {
      ShiftExecuted(ops, facts, world, a, b, k - 1);
      ShiftActive(ops, facts, world, a, b, k - 1);
      assert a + k - 1 == a + (k - 1);
    }
  }

  lemma {:induction false} ShiftRuns(ops: seq<Op>, facts: Facts, world: seq<Moment>, a: nat, b: nat, k: nat)
    requires Stretch(ops, world, a, b) && k <= b - a
    requires Runs(ops, facts, world, a) && Runs(ops[a..b], facts, world[a..b], k)
    ensures Runs(ops, facts, world, a + k)
  {
    hide LineEnd;
    forall j: nat | j < a + k
      ensures LineEnd(ops, facts, world, j) == Finished
    {
      if j >= a {
        ShiftLine(ops, facts, world, a, b, j - a);
      }
    }
  }

  lemma {:induction false} StretchFinishes(ops: seq<Op>, facts: Facts, world: seq<Moment>, a: nat, b: nat,
                                           applied: seq<nat>)
    requires Stretch(ops, world, a, b) && Runs(ops, facts, world, a)
    requires Applies(ops[a..b], facts, world[a..b], applied, Finished)
    ensures Runs(ops, facts, world, b)
    ensures Executed(ops, facts, world, b) == Executed(ops, facts, world, a) + Shifted(applied, a)
  {
    ShiftRuns(ops, facts, world, a, b, b - a);
    ShiftExecuted(ops, facts, world, a, b, b - a);
  }

  lemma {:induction false} StretchStops(ops: seq<Op>, facts: Facts, world: seq<Moment>, a: nat, b: nat,
                                        applied: seq<nat>, end: End)
    requires Stretch(ops, world, a, b) && Runs(ops, facts, world, a) && end != Finished && end != Unclosed
    requires Applies(ops[a..b], facts, world[a..b], applied, end)
    ensures Applies(ops, facts, world, Executed(ops, facts, world, a) + Shifted(applied, a), ShiftEnd(end, a))
  {
    hide LineEnd, Executed, Runs;
    ShiftRuns(ops, facts, world, a, b, end.at);
    ShiftLine(ops, facts, world, a, b, end.at);
    ShiftExecuted(ops, facts, world, a, b, end.at);
  }

  /** Where the lines before a stretch ran through, the body goes on as the
      stretch does on its own. */
  lemma {:induction false} StretchGoesOn(ops: seq<Op>, facts: Facts, world: seq<Moment>, a: nat, b: nat,
                                         applied: seq<nat>, end: End)
    requires Stretch(ops, world, a, b) && OpenBefore(ops, b) == []
    requires Runs(ops, facts, world, a) && Applies(ops[a..b], facts, world[a..b], applied, end)
    ensures end != Unclosed
    ensures end == Finished ==> Runs(ops, facts, world, b)
    ensures end == Finished ==>
              Executed(ops, facts, world, b) == Executed(ops, facts, world, a) + Shifted(applied, a)
    ensures end != Finished ==>
              Applies(ops, facts, world, Executed(ops, facts, world, a) + Shifted(applied, a), ShiftEnd(end, a))
  {
    StretchCloses(ops, facts, world, a, b, applied, end);
    hide Applies, Executed, Runs;
    if end == Finished {
      StretchFinishes(ops, facts, world, a, b, applied);
    } else {
      StretchStops(ops, facts, world, a, b, applied, end);
    }
  }

  lemma {:induction false} StretchCloses(ops: seq<Op>, facts: Facts, world: seq<Moment>, a: nat, b: nat,
                                         applied: seq<nat>, end: End)
    requires Stretch(ops, world, a, b) && OpenBefore(ops, b) == []
    requires Applies(ops[a..b], facts, world[a..b], applied, end)
    ensures end != Unclosed
  {
    EndsOpen(ops[a..b], facts, world[a..b], applied, end);
    hide Applies, OpenBefore;
    OpenInPart(ops, a, b, b - a);
  }

  lemma {:induction false} EndsOpen(ops: seq<Op>, facts: Facts, world: seq<Moment>, applied: seq<nat>, end: End)
    requires |ops| == |world| && Applies(ops, facts, world, applied, end)
    ensures end == Unclosed ==> OpenBefore(ops, |ops|) != []
  {
  }

  lemma {:induction false} RanThrough(ops: seq<Op>, facts: Facts, world: seq<Moment>)
    requires |ops| == |world| && Runs(ops, facts, world, |ops|) && OpenBefore(ops, |ops|) == []
    ensures Applies(ops, facts, world, Executed(ops, facts, world, |ops|), Finished)
  {
  }

  /** What the first c parts apply, in the body's own indexes. */
  ghost function PartsApplied(bounds: seq<nat>, applied: seq<seq<nat>>, c: nat): seq<nat>
    requires c <= |applied| && |applied| <= |bounds|
  {
    if c == 0 then [] else PartsApplied(bounds, applied, c - 1) + Shifted(applied[c - 1], bounds[c - 1])
  }

  /** The effective classes cut a balanced body at bounds. */
  ghost predicate CutBody(body: seq<Op>, eff: seq<bool>, bounds: seq<nat>) {
    && Balanced(body) && |eff| == |body| && Cuts(eff, bounds, |body|)
    && forall k: nat :: k < |body| ==> (eff[k] <==> Promoted(body, k))
  }

  /** Part c applied on its own. */
  ghost predicate PartApplies(body: seq<Op>, facts: Facts, world: seq<Moment>, bounds: seq<nat>, c: nat,
                              applied: seq<nat>, end: End)
  {
    && |world| == |body| && c < |bounds| - 1 && bounds[c] <= bounds[c + 1] <= |body|
    && Applies(body[bounds[c]..bounds[c + 1]], facts, world[bounds[c]..bounds[c + 1]], applied, end)
  }

  lemma {:induction false} PartBounds(body: seq<Op>, eff: seq<bool>, bounds: seq<nat>, c: nat)
    requires CutBody(body, eff, bounds) && c < |bounds| - 1
    ensures bounds[c] < bounds[c + 1] <= |body|
    ensures OpenBefore(body, bounds[c]) == [] && OpenBefore(body, bounds[c + 1]) == []
  {
    CutsOutside(body, eff, bounds, c);
    CutsOutside(body, eff, bounds, c + 1);
    assert Part(eff, bounds[c], bounds[c + 1]);
  }

  /** As long as every part finishes, the body has run that far and applied
      the same ops in the same order. */
  lemma {:induction false} PartsRun(body: seq<Op>, eff: seq<bool>, bounds: seq<nat>, facts: Facts, world: seq<Moment>,
                                   applied: seq<seq<nat>>, c: nat)
    requires CutBody(body, eff, bounds) && |world| == |body| && c <= |applied| < |bounds|
    requires forall d :: 0 <= d < c ==> PartApplies(body, facts, world, bounds, d, applied[d], Finished)
    ensures bounds[c] <= |body| && Runs(body, facts, world, bounds[c])
    ensures Executed(body, facts, world, bounds[c]) == PartsApplied(bounds, applied, c)
  {
    if c > 0 {
      hide CutBody, Applies, Executed, Runs;
      PartsRun(body, eff, bounds, facts, world, applied, c - 1);
      PartBounds(body, eff, bounds, c - 1);
      assert PartApplies(body, facts, world, bounds, c - 1, applied[c - 1], Finished);
      StretchGoesOn(body, facts, world, bounds[c - 1], bounds[c], applied[c - 1], Finished);
    }
  }

  /** Splitting preserves meaning.  With the same guard outcomes, handler
      outcomes and cancellations line by line, the parts applied in order end
      as the unsplit body does, after the same ops in the same order: the body
      finishes exactly when all parts do, and otherwise stops at the same op
      for the same reason as the first part that stops. */
  lemma {:induction false} SplitPreservesMeaning(body: seq<Op>, eff: seq<bool>, bounds: seq<nat>, facts: Facts,
                                                 world: seq<Moment>,
                              applied: seq<seq<nat>>, c: nat, end: End)
    requires CutBody(body, eff, bounds) && |world| == |body| && c < |applied| < |bounds|
    requires forall d :: 0 <= d < c ==> PartApplies(body, facts, world, bounds, d, applied[d], Finished)
    requires PartApplies(body, facts, world, bounds, c, applied[c], end)
    requires end == Finished ==> c == |bounds| - 2
    ensures Applies(body, facts, world, PartsApplied(bounds, applied, c + 1), ShiftEnd(end, bounds[c]))
  {
    hide CutBody, Executed, Runs, Applies, OpenBefore, PartsApplied, PartApplies, Active;
    PartsRun(body, eff, bounds, facts, world, applied, c);
    PartBounds(body, eff, bounds, c);
    PartGoesOn(body, facts, world, bounds, c, applied, end);
    if end == Finished {
      CutEnd(body, eff, bounds);
      RanThrough(body, facts, world);
    }
  }

  lemma {:induction false} PartGoesOn(body: seq<Op>, facts: Facts, world: seq<Moment>, bounds: seq<nat>, c: nat,
                   applied: seq<seq<nat>>, end: End)
    requires |world| == |body| && c < |applied| < |bounds|
    requires PartApplies(body, facts, world, bounds, c, applied[c], end)
    requires OpenBefore(body, bounds[c]) == [] && OpenBefore(body, bounds[c + 1]) == []
    requires Runs(body, facts, world, bounds[c])
    requires Executed(body, facts, world, bounds[c]) == PartsApplied(bounds, applied, c)
    ensures end == Finished ==> Runs(body, facts, world, bounds[c + 1])
    ensures end == Finished ==> Executed(body, facts, world, bounds[c + 1]) == PartsApplied(bounds, applied, c + 1)
    ensures end != Finished ==>
              Applies(body, facts, world, PartsApplied(bounds, applied, c + 1), ShiftEnd(end, bounds[c]))
  {
    hide Executed, Runs, Applies, OpenBefore;
    StretchGoesOn(body, facts, world, bounds[c], bounds[c + 1], applied[c], end);
  }

  lemma {:induction false} CutEnd(body: seq<Op>, eff: seq<bool>, bounds: seq<nat>)
    requires CutBody(body, eff, bounds)
    ensures |bounds| > 0 && bounds[|bounds| - 1] == |body|
  {
  }

  predicate StubLine(op: Op) {
    (op.kind.KindWhenBegin? && HostOnly(op)) || (op.kind.KindWhenEnd? && op.require == "")
  }

  /** Stub lines: balanced host-only when_begins and when_ends, with a
      requirement among them if there are any. */
  ghost predicate StubList(stubs: seq<Op>) {
    Balanced(stubs) && (forall k :: 0 <= k < |stubs| ==> StubLine(stubs[k])) && (stubs != [] ==> HasRequire(stubs))
  }

  lemma {:induction false} NoStubs()
    ensures StubList([])
  {
  }

  lemma {:induction false} StubListConcat(a: seq<Op>, b: seq<Op>)
    requires StubList(a) && StubList(b)
    ensures StubList(a + b)
  {
    BalancedConcat(a, b);
    StubLinesConcat(a, b);
    RequireConcat(a, b);
    hide Balanced, StubLine, HasRequire;
  }

  lemma {:induction false} StubLinesConcat(a: seq<Op>, b: seq<Op>)
    requires (forall k :: 0 <= k < |a| ==> StubLine(a[k])) && forall k :: 0 <= k < |b| ==> StubLine(b[k])
    ensures forall k :: 0 <= k < |a + b| ==> StubLine((a + b)[k])
  {
  }

  lemma {:induction false} RequireConcat(a: seq<Op>, b: seq<Op>)
    ensures HasRequire(a) || HasRequire(b) ==> HasRequire(a + b)
  {
    if HasRequire(a) {
      var k :| 0 <= k < |a| && a[k].require != "";
      assert (a + b)[k].require != "";
    } else if HasRequire(b) {
      var k :| 0 <= k < |b| && b[k].require != "";
      assert (a + b)[|a| + k].require != "";
    }
  }

  lemma {:induction false} StubLines(chain: seq<Op>)
    ensures |Stub(chain)| == 2 * |chain|
    ensures forall i :: 0 <= i < |chain| ==> Stub(chain)[i] == chain[i]
    ensures forall i :: |chain| <= i < 2 * |chain| ==> Stub(chain)[i] == BareOp(KindWhenEnd)
  {
  }

  /** Inside a stub the openers are open one by one, then closed one by one. */
  lemma {:induction false} StubOpen(chain: seq<Op>, k: nat)
    requires (forall i :: 0 <= i < |chain| ==> chain[i].kind.KindWhenBegin?) && k <= 2 * |chain|
    ensures |Stub(chain)| == 2 * |chain|
    ensures |OpenBefore(Stub(chain), k)| == if k <= |chain| then k else 2 * |chain| - k
    ensures forall i :: 0 <= i < |OpenBefore(Stub(chain), k)| ==> OpenBefore(Stub(chain), k)[i] == i
  {
    hide Stub, OpenBefore;
    StubLines(chain);
    NothingOpenYet(Stub(chain));
    if k > 0 {
      StubOpen(chain, k - 1);
      OpenAfter(Stub(chain), k - 1);
    }
  }

  lemma {:induction false} ChainBegins(ops: seq<Op>, k: nat)
    requires k < |ops|
    ensures forall i :: 0 <= i < |Chain(ops, k)| ==> Chain(ops, k)[i].kind.KindWhenBegin?
  {
  }

  lemma {:induction false} StubIsList(chain: seq<Op>)
    requires HostChain(chain) && chain != [] && IsRequirement(chain[|chain| - 1])
    requires forall i :: 0 <= i < |chain| ==> chain[i].kind.KindWhenBegin?
    ensures StubList(Stub(chain))
  {
    var stub := Stub(chain);
    StubOpen(chain, |stub|);
    assert stub[|chain| - 1].require != "";
    forall j | 0 <= j < |stub| && stub[j].kind.KindWhenEnd?
      ensures OpenBefore(stub, j) != []
    {
      StubOpen(chain, j);
    }
  }

  lemma {:induction false} StubAtIsList(ops: seq<Op>, k: nat)
    requires k < |ops|
    ensures StubList(StubAt(ops, k))
  {
    NoStubs();
    if IsRequirement(ops[k]) && HostChain(Chain(ops, k)) {
      ChainEnds(ops, k);
      ChainBegins(ops, k);
      hide Chain, StubList;
      StubIsList(Chain(ops, k));
    }
  }

  lemma {:induction false} StubsAreList(ops: seq<Op>, n: nat)
    requires n <= |ops|
    ensures StubList(Stubs(ops, n))
  {
    hide StubList, StubAt;
    NoStubs();
    if n > 0 {
      StubsAreList(ops, n - 1);
      StubAtIsList(ops, n - 1);
      StubListConcat(Stubs(ops, n - 1), StubAt(ops, n - 1));
    }
  }

  lemma {:induction false} PendingIsList(chunks: seq<Chunk>, k: nat)
    requires k <= |chunks|
    ensures StubList(Pending(chunks, k))
    decreases |chunks| - k
  {
    hide StubList;
    NoStubs();
    if k < |chunks| {
      PendingIsList(chunks, k + 1);
      StubsAreList(chunks[k].ops, |chunks[k].ops|);
      StubListConcat(Stubs(chunks[k].ops, |chunks[k].ops|), Pending(chunks, k + 1));
    }
  }

  /** The first a lines are stub lines. */
  ghost predicate StubsFirst(ops: seq<Op>, a: nat) {
    a <= |ops| && StubList(ops[..a])
  }

  lemma {:induction false} StubsFirstOpen(ops: seq<Op>, a: nat, k: nat)
    requires StubsFirst(ops, a) && k <= a
    ensures OpenBefore(ops, k) == OpenBefore(ops[..a], k)
    ensures k == a ==> OpenBefore(ops, k) == []
    ensures k < a && ops[k].kind.KindWhenEnd? ==> OpenBefore(ops, k) != []
    ensures k < a ==> StubLine(ops[k])
  {
    OpenPrefix(ops[..a], ops, k);
    assert k < a ==> ops[..a][k] == ops[k];
  }

  lemma {:induction false} ControlNotExecuted(ops: seq<Op>, facts: Facts, world: seq<Moment>, k: nat)
    requires k < |ops| == |world| && IsControlKind(ops[k].kind)
    ensures Executed(ops, facts, world, k + 1) == Executed(ops, facts, world, k)
  {
  }

  lemma {:induction false} NothingExecuted(ops: seq<Op>, facts: Facts, world: seq<Moment>)
    requires |ops| == |world|
    ensures Executed(ops, facts, world, 0) == []
  {
  }

  /** Nothing of a stub list is ever executed. */
  lemma {:induction false} StubsExecute(ops: seq<Op>, a: nat, facts: Facts, world: seq<Moment>, n: nat)
    requires StubsFirst(ops, a) && n <= a && |ops| == |world|
    ensures Executed(ops, facts, world, n) == []
  {
    hide Active, OpenBefore, StubsFirst, HostOnly, Executed, Balanced;
    StubsFirstRange(ops, a);
    if n > 0 {
      StubsExecute(ops, a, facts, world, n - 1);
      StubsFirstOpen(ops, a, n - 1);
      ControlNotExecuted(ops, facts, world, n - 1);
    } else {
      NothingExecuted(ops, facts, world);
    }
  }

  /** A stub line refuses at every moment or at none. */
  lemma {:induction false} StubRefuses(ops: seq<Op>, a: nat, facts: Facts, world: seq<Moment>, other: seq<Moment>,
                                       k: nat)
    requires StubsFirst(ops, a) && |world| == |other| == |ops| && k < a
    requires GuardRefuses(ops, facts, world, k)
    ensures GuardRefuses(ops, facts, other, k)
  {
    hide StubsFirst, GuardAt;
    StubsFirstRange(ops, a);
    var open := OpenBefore(ops, k);
    forall i | 0 <= i < |open|
      ensures GuardAt(ops, facts, other, open[i]) == Holds
    {
      StubsFirstOpen(ops, a, open[i]);
      SameGuard(ops, world, open[i], ops, other, open[i], facts);
    }
    StubsFirstOpen(ops, a, k);
    SameGuard(ops, world, k, ops, other, k, facts);
  }

  lemma {:induction false} StubsFirstRange(ops: seq<Op>, a: nat)
    requires StubsFirst(ops, a)
    ensures a <= |ops|
  {
  }

  lemma {:induction false} StubsFirstRequire(ops: seq<Op>, a: nat)
    requires StubsFirst(ops, a) && a > 0
    ensures HasRequire(ops)
  {
    var k :| 0 <= k < a && ops[..a][k].require != "";
    assert ops[k].require != "";
  }

  /** Once a chunk's pre-check accepted, its stub lines run through until one
      of them finds the apply cancelled. */
  lemma {:induction false} StubsRun(ops: seq<Op>, a: nat, facts: Facts, before: seq<Moment>, during: seq<Moment>,
                                    n: nat)
    requires StubsFirst(ops, a) && |before| == |during| == |ops| && n <= a
    requires Checks(ops, facts, before, CheckOk)
    requires forall k :: 0 <= k < n ==> !during[k].cancelled
    ensures Runs(ops, facts, during, n)
  {
    hide StubsFirst, HasRequire, GuardRefuses, Active, OpenBefore;
    StubsFirstRange(ops, a);
    forall k: nat | k < n
      ensures LineEnd(ops, facts, during, k) == Finished
    {
      StubsFirstOpen(ops, a, k);
      StubsFirstRequire(ops, a);
      if GuardRefuses(ops, facts, during, k) {
        StubRefuses(ops, a, facts, during, before, k);
      }
    }
  }

  /** Line k is the first of the first a lines that finds the apply cancelled. */
  predicate CancelledFirst(during: seq<Moment>, a: nat, k: nat) {
    k < a <= |during| && during[k].cancelled && forall j :: 0 <= j < k ==> !during[j].cancelled
  }

  predicate NotCancelled(during: seq<Moment>, a: nat) {
    a <= |during| && forall k :: 0 <= k < a ==> !during[k].cancelled
  }

  /** Once a chunk's pre-check accepted, its stubs change nothing: the chunk
      applies what its part applies on its own, and ends the same way.  Only a
      cancellation can end it on a stub line, before it applied anything. */
  lemma {:induction false} StubsInert(ops: seq<Op>, a: nat, facts: Facts, before: seq<Moment>, during: seq<Moment>,
                   applied: seq<nat>, end: End)
    requires StubsFirst(ops, a) && |before| == |during| == |ops| && OpenBefore(ops, |ops|) == []
    requires Checks(ops, facts, before, CheckOk)
    requires Applies(ops[a..], facts, during[a..], applied, end)
    ensures NotCancelled(during, a) ==> Applies(ops, facts, during, Shifted(applied, a), ShiftEnd(end, a))
    ensures forall k: nat :: CancelledFirst(during, a, k) ==> Applies(ops, facts, during, [], Cancelled(k))
  {
    StubsFirstRange(ops, a);
    forall k: nat | CancelledFirst(during, a, k)
      ensures Applies(ops, facts, during, [], Cancelled(k))
    {
      StubsCancelled(ops, a, facts, before, during, k);
    }
    if NotCancelled(during, a) {
      hide *;
      StubsPassed(ops, a, facts, before, during, applied, end);
    }
  }

  lemma {:induction false} StubsCancelled(ops: seq<Op>, a: nat, facts: Facts, before: seq<Moment>, during: seq<Moment>,
                                          k: nat)
    requires StubsFirst(ops, a) && |before| == |during| == |ops| && Checks(ops, facts, before, CheckOk)
    requires CancelledFirst(during, a, k)
    ensures Applies(ops, facts, during, [], Cancelled(k))
  {
    hide StubsFirst, Checks, Runs, Executed, OpenBefore, Active;
    StubsFirstRange(ops, a);
    StubsRun(ops, a, facts, before, during, k);
    StubsExecute(ops, a, facts, during, k);
    CancelledEnd(ops, facts, during, k);
  }

  lemma {:induction false} StubsPassed(ops: seq<Op>, a: nat, facts: Facts, before: seq<Moment>, during: seq<Moment>,
                                       applied: seq<nat>, end: End)
    requires StubsFirst(ops, a) && |before| == |during| == |ops| && OpenBefore(ops, |ops|) == []
    requires Checks(ops, facts, before, CheckOk) && NotCancelled(during, a)
    requires Applies(ops[a..], facts, during[a..], applied, end)
    ensures Applies(ops, facts, during, Shifted(applied, a), ShiftEnd(end, a))
  {
    hide StubsFirst, Checks, Applies, Runs, Executed, OpenBefore, Active, Balanced;
    StubsFirstRange(ops, a);
    StubsRun(ops, a, facts, before, during, a);
    StubsExecute(ops, a, facts, during, a);
    StubsFirstOpen(ops, a, a);
    assert ops[a..|ops|] == ops[a..] && during[a..|ops|] == during[a..];
    StretchGoesOn(ops, facts, during, a, |ops|, applied, end);
    assert [] + Shifted(applied, a) == Shifted(applied, a);
    if end == Finished {
      RanThrough(ops, facts, during);
    }
  }
}
