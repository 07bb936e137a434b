/** Apply of plan/apply.go on one chunk: gate check, sort, requirement check,
    then the interpreter. */
module PlanApply {
  import opened Ops
  import opened Guards
  import opened Blocks
  import opened Interpreter
  import opened Splits
  import opened Requirements
  import opened Kahn
  import opened ChunkOrders
  import opened ChunkChecks
  import opened PlanChecks
  import opened ApplySort
  import opened EndToEnd
  import opened SortMeaning
  import opened AllOrNothing

  datatype Outcome =
    | Negated(chunk: nat, op: nat, at: nat)
    | Unmanaged
    | Runtime(chunk: nat, op: nat)
    | BadGate(gate: Refusal)
    | Unsorted(sort: BodySort)
    | Unchecked(check: Check)
    | Ran(order: seq<nat>, applied: seq<nat>, end: End)

  /** Some guard negates the operating system. */
  predicate NegatesOs(ops: seq<Op>) {
    exists k, i :: 0 <= k < |ops| && ops[k].kind.KindWhenBegin? && 0 <= i < |ops[k].all| && ops[k].all[i].negated
  }

  /** requiresWhenNotOS for some op. */
  method FindsNegation(ops: seq<Op>) returns (found: bool)
    ensures found <==> NegatesOs(ops)
  {
    for k := 0 to |ops|
      invariant forall j, i :: 0 <= j < k && ops[j].kind.KindWhenBegin? && 0 <= i < |ops[j].all| ==>
                  !ops[j].all[i].negated
    {
      if ops[k].kind.KindWhenBegin? {
        for i := 0 to |ops[k].all|
          invariant forall j :: 0 <= j < i ==> !ops[k].all[j].negated
        {
          if ops[k].all[i].negated {
            return true;
          }
        }
      }
    }
    found := false;
  }

  /** The rules for single ops, and a managed host where a guard negates it. */
  predicate OpsReady(ops: seq<Op>, facts: Facts) {
    NegationsOk([ops]) && (NegatesOs(ops) ==> Managed(facts.goos)) && ServicesOk([ops])
  }

  /** The chunk is refused before any op applies unless its ops keep the rules
      for single ops, its gates are local, its runs sort and its requirements
      hold; after that no requirement refuses, whatever the ops do to the paths
      the guards ask about. */
  method ApplyChunk(ops: seq<Op>, facts: Facts, before: seq<Moment>, during: seq<Moment>) returns (r: Outcome)
    requires |ops| > 0 && |before| == |during| == |ops| - 1
    ensures r.Negated? <==> !NegationsOk([ops])
    ensures r.Unmanaged? <==> NegationsOk([ops]) && NegatesOs(ops) && !Managed(facts.goos)
    ensures r.Negated? || r.Unmanaged? || r.Runtime? <==> !OpsReady(ops, facts)
    ensures r.BadGate? <==> OpsReady(ops, facts) && !GatesLocal([ops])
    ensures r.Unsorted? <==> OpsReady(ops, facts) && GatesLocal([ops]) && !SortAccepts(ops[1..])
    ensures r.Unchecked? ==>
              exists out, check ::
                Reordered(ops[1..], out) && Checks(Picked(ops[1..], out), facts, before, check) && check != CheckOk
    ensures r.Ran? ==> Reordered(ops[1..], r.order) && Checks(Picked(ops[1..], r.order), facts, before, CheckOk)
    ensures r.Ran? ==> Applies(Picked(ops[1..], r.order), facts, during, r.applied, r.end) && !r.end.Unmet?
  {
    hide NegationsOk, ServicesOk, NegatesOs, VerdictTells, ServiceOk;
    hide GatesLocal, SortAccepts, SortedTo, Checks, Applies, FirstGate, FirstWatch, Permutation;
    var negation := ValidateNegations([ops]);
    if negation.Some? {
      return Negated(negation.value.0, negation.value.1, negation.value.2);
    }
    var negates := FindsNegation(ops);
    if negates && !Managed(facts.goos) {
      return Unmanaged;
    }
    var service := ValidateServices([ops]);
    if service.Some? {
      return Runtime(service.value.0, service.value.1);
    }
    var gates := ValidateChangeGates([ops]);
    if !gates.Accepted? {
      return Outcome.BadGate(gates);
    }
    var body := ops[1..];
    var sorted := SortedApplyOrder(body);
    if !sorted.BodySorted? {
      return Unsorted(sorted);
    }
    SortedPermutation(body, sorted.order);
    PermutationRange(|body|, sorted.order);
    var lines := Picked(body, sorted.order);
    var check := CheckRequirements(lines, facts, before);
    if check != CheckOk {
      assert Reordered(body, sorted.order);
      return Unchecked(check);
    }
    var applied, end := ApplyBody(lines, facts, during);
    PreCheckDecides(lines, facts, before, during, applied, end);
    r := Ran(sorted.order, applied, end);
  }

  lemma {:induction false} PermutationRange(n: nat, order: seq<nat>)
    requires Permutation(n, order)
    ensures |order| == n && forall k :: 0 <= k < |order| ==> order[k] < n
  {
  }

  /** The sorted lines of a chunk hold a requirement if the recorded ones do. */
  lemma {:induction false} SortKeepsRequire(body: seq<Op>, out: seq<nat>)
    requires Permutation(|body|, out) && HasRequire(body)
    ensures HasRequire(Picked(body, out))
  {
    var k: nat :| k < |body| && body[k].require != "";
    PermutationHolds(|body|, out, k);
    var j: nat :| j < |out| && out[j] == k;
    assert Picked(body, out)[j].require != "";
  }

  /** An unmet requirement of the sorted lines is a refusing requirement of the
      recorded ones. */
  lemma {:induction false} SortedUnmet(body: seq<Op>, out: seq<nat>, facts: Facts, world: seq<Moment>, k: nat)
    requires Reordered(body, out) && |world| == |body| && k < |body|
    requires GuardRefuses(Picked(body, out), facts, world, k) && IsRequirement(Picked(body, out)[k])
    ensures GuardRefuses(body, facts, world, k) && GuardsRequirement(body, k)
  {
    SortKeepsRefusals(body, out, facts, world, k);
    SameLine(body, out, k);
    hide GuardRefuses, Reordered;
    assert OpenBefore(body, k + 1) == OpenBefore(body, k) + [k];
    AroundRequirement(body, k, k);
  }

  /** All or nothing over whole chunks: if Apply would refuse a later chunk for
      an unmet requirement, Apply refuses the first chunk before any op of it
      runs, each chunk sorted and checked as Apply does it, with whatever paths
      exist at either time. */
  lemma {:induction false} RefusedTogether(chunks: seq<Chunk>, c: nat, facts: Facts, out: seq<nat>, world: seq<Moment>,
                                           k: nat,
                                          firstOut: seq<nat>, first: seq<Moment>, r: Check)
    requires 0 < c < |chunks| && PlanChunk(chunks[c])
    requires Reordered(Lines(chunks, c), out) && |world| == |Lines(chunks, c)|
    requires Checks(Picked(Lines(chunks, c), out), facts, world, CheckUnmet(k))
    requires Reordered(Lines(chunks, 0), firstOut) && |first| == |Lines(chunks, 0)|
    requires Checks(Picked(Lines(chunks, 0), firstOut), facts, first, r)
    ensures r != CheckOk
  {
    UnmetHere(Picked(Lines(chunks, c), out), facts, world, k);
    hide GuardRefuses, GuardsRequirement, PlanChunk, Refusing, HasRequire, Lines;
    SortedUnmet(Lines(chunks, c), out, facts, world, k);
    FirstChunkRefuses(chunks, c, facts, world, k, first);
    SortKeepsRequire(Lines(chunks, 0), firstOut);
    hide Reordered, IsRequirement;
    var at := RefusesSomewhere(Lines(chunks, 0), facts, first);
    SortKeepsRefusals(Lines(chunks, 0), firstOut, facts, first, at);
  }

  lemma {:induction false} UnmetHere(ops: seq<Op>, facts: Facts, world: seq<Moment>, k: nat)
    requires |ops| == |world| && Checks(ops, facts, world, CheckUnmet(k))
    ensures k < |ops| && GuardRefuses(ops, facts, world, k) && IsRequirement(ops[k])
  {
  }

  lemma {:induction false} RefusesSomewhere(ops: seq<Op>, facts: Facts, world: seq<Moment>) returns (at: nat)
    requires Refusing(ops, facts, world)
    ensures at < |ops| == |world| && GuardRefuses(ops, facts, world, at)
  {
    at :| 0 <= at < |ops| && GuardRefuses(ops, facts, world, at);
  }
}
