/** The whole-plan pre-flight over privilege chunks: ValidateChunks of
    plan/split.go with the operation rules it starts with. */
module PlanChecks {
  import opened Ops
  import opened Guards
  import opened Splits
  import opened Requirements
  import opened ChunkChecks

  /** A negated predicate stands in a when_begin and is well formed. */
  predicate NegationOk(op: Op) {
    forall i :: 0 <= i < |op.all| && op.all[i].negated ==> op.kind.KindWhenBegin? && ValidNegation(op.all[i])
  }

  /** An enable-only service asks for no runtime change. */
  predicate ServiceOk(op: Op) {
    op.kind.KindService? && op.kind.enableOnly ==> !op.kind.restart && !op.kind.reload && !op.ifChanged
  }

  predicate NegationsOk(bodies: seq<seq<Op>>) {
    forall c, k :: 0 <= c < |bodies| && 0 <= k < |bodies[c]| ==> NegationOk(bodies[c][k])
  }

  predicate ServicesOk(bodies: seq<seq<Op>>) {
    forall c, k :: 0 <= c < |bodies| && 0 <= k < |bodies[c]| ==> ServiceOk(bodies[c][k])
  }

  predicate AllScopesOk(bodies: seq<seq<Op>>) {
    forall c :: 0 <= c < |bodies| ==> ScopesOk(bodies[c])
  }

  /** Every rule holds: the rules for single ops, dependencies in place, gates
      local, requirements in scope. */
  predicate KeepsRules(bodies: seq<seq<Op>>) {
    NegationsOk(bodies) && ServicesOk(bodies) && DepsPlaced(bodies) && GatesLocal(bodies) && AllScopesOk(bodies)
  }

  /** Op j of chunk d comes before op k of chunk c. */
  predicate Earlier(d: int, j: int, c: int, k: int) {
    d < c || (d == c && j < k)
  }

  datatype Verdict =
    | ChunksOk
    | BadNegation(chunk: nat, op: nat, at: nat)
    | BadService(chunk: nat, op: nat)
    | BadDep(reason: Refusal)
    | BadGate(reason: Refusal)
    | BadRequirement(chunk: nat, op: nat)

  /** What is wrong is the first thing of its sort, and nothing of an earlier
      sort is. */
  ghost predicate VerdictTells(bodies: seq<seq<Op>>, v: Verdict) {
    match v
    case ChunksOk => KeepsRules(bodies)
    case BadNegation(c, k, i) =>
      && c < |bodies| && k < |bodies[c]| && i < |bodies[c][k].all| && bodies[c][k].all[i].negated
      && !(bodies[c][k].kind.KindWhenBegin? && ValidNegation(bodies[c][k].all[i]))
      && (forall j :: 0 <= j < i && bodies[c][k].all[j].negated ==>
            bodies[c][k].kind.KindWhenBegin? && ValidNegation(bodies[c][k].all[j]))
      && (forall d, j :: 0 <= d < |bodies| && 0 <= j < |bodies[d]| && Earlier(d, j, c, k) ==> NegationOk(bodies[d][j]))
    case BadService(c, k) =>
      && NegationsOk(bodies) && c < |bodies| && k < |bodies[c]| && !ServiceOk(bodies[c][k])
      && (forall d, j :: 0 <= d < |bodies| && 0 <= j < |bodies[d]| && Earlier(d, j, c, k) ==> ServiceOk(bodies[d][j]))
    case BadDep(reason) =>
      && NegationsOk(bodies) && ServicesOk(bodies) && !DepsPlaced(bodies) && (reason.DanglingDep? || reason.ForwardDep?)
      && FirstMisplaced(bodies, reason.chunk, reason.op, reason.at)
      && (reason.DanglingDep? <==> ChunkWith(bodies, bodies[reason.chunk][reason.op].deps[reason.at]) < 0)
      && (reason.ForwardDep? ==> ChunkWith(bodies, bodies[reason.chunk][reason.op].deps[reason.at]) > reason.chunk)
    case BadGate(reason) =>
      && NegationsOk(bodies) && ServicesOk(bodies) && DepsPlaced(bodies) && !GatesLocal(bodies)
      && GateTells(bodies, reason)
    case BadRequirement(c, k) =>
      && NegationsOk(bodies) && ServicesOk(bodies) && DepsPlaced(bodies) && GatesLocal(bodies)
      && c < |bodies| && FirstBadScope(bodies[c], k) && forall d :: 0 <= d < c ==> ScopesOk(bodies[d])
  }

  /** The first gate out of place, and its first watch that is. */
  ghost predicate GateTells(bodies: seq<seq<Op>>, reason: Refusal) {
    match reason
    case NoWatch(c, k) => FirstGate(bodies, c, k) && bodies[c][k].watch == []
    case DanglingWatch(c, k, w) => FirstWatch(bodies, c, k, w) && ChunkWith(bodies, bodies[c][k].watch[w]) < 0
    case CrossChunkWatch(c, k, w) => FirstWatch(bodies, c, k, w) && 0 <= ChunkWith(bodies, bodies[c][k].watch[w]) != c
    case _ => false
  }

  /** validateNegatedOSChunks. */
  method ValidateNegations(bodies: seq<seq<Op>>) returns (bad: Option<(nat, nat, nat)>)
    ensures bad.None? <==> NegationsOk(bodies)
    ensures bad.Some? ==> VerdictTells(bodies, BadNegation(bad.value.0, bad.value.1, bad.value.2))
  {
    hide ValidNegation;
    for c := 0 to |bodies|
      invariant forall d, k :: 0 <= d < c && 0 <= k < |bodies[d]| ==> NegationOk(bodies[d][k])
    {
      for k := 0 to |bodies[c]|
        invariant forall j :: 0 <= j < k ==> NegationOk(bodies[c][j])
      {
        var op := bodies[c][k];
        for i := 0 to |op.all|
          invariant forall j :: 0 <= j < i && op.all[j].negated ==> op.kind.KindWhenBegin? && ValidNegation(op.all[j])
        {
          if op.all[i].negated && (!op.kind.KindWhenBegin? || !ValidNegation(op.all[i])) {
            assert !NegationOk(bodies[c][k]);
            return Some((c, k, i));
          }
        }
      }
    }
    bad := None;
  }

  /** ValidateServiceEnableOnly. */
  method ValidateServices(bodies: seq<seq<Op>>) returns (bad: Option<(nat, nat)>)
    ensures bad.None? <==> ServicesOk(bodies)
    ensures bad.Some? ==>
              && bad.value.0 < |bodies| && bad.value.1 < |bodies[bad.value.0]|
              && !ServiceOk(bodies[bad.value.0][bad.value.1])
              && forall d, j :: 0 <= d < |bodies| && 0 <= j < |bodies[d]| && Earlier(d, j, bad.value.0, bad.value.1) ==>
                   ServiceOk(bodies[d][j])
  {
    for c := 0 to |bodies|
      invariant forall d, k :: 0 <= d < c && 0 <= k < |bodies[d]| ==> ServiceOk(bodies[d][k])
    {
      for k := 0 to |bodies[c]|
        invariant forall j :: 0 <= j < k ==> ServiceOk(bodies[c][j])
      {
        if !ServiceOk(bodies[c][k]) {
          return Some((c, k));
        }
      }
    }
    bad := None;
  }

  /** ValidateChunks: every rule in turn over the chunks' bodies. */
  method ValidateChunks(chunks: seq<Chunk>) returns (v: Verdict)
    ensures VerdictTells(OpsOf(chunks), v) && (v.ChunksOk? <==> KeepsRules(OpsOf(chunks)))
  {
    var bodies := OpsOf(chunks);
    hide NegationsOk, ServicesOk, DepsPlaced, GatesLocal, ScopesOk, FirstMisplaced, FirstGate, FirstWatch,
         FirstBadScope, ChunkWith;
    var negation := ValidateNegations(bodies);
    if negation.Some? {
      return BadNegation(negation.value.0, negation.value.1, negation.value.2);
    }
    var service := ValidateServices(bodies);
    if service.Some? {
      return BadService(service.value.0, service.value.1);
    }
    var deps := ValidateChunkDeps(bodies);
    if !deps.Accepted? {
      return BadDep(deps);
    }
    var gates := ValidateChangeGates(bodies);
    if !gates.Accepted? {
      return BadGate(gates);
    }
    var scopes := ValidateRequirementScopes(bodies);
    if scopes.Some? {
      return BadRequirement(scopes.value.0, scopes.value.1);
    }
    v := ChunksOk;
    assert AllScopesOk(bodies);
  }

  /** The pre-flight accepts exactly the plans that keep every rule, and the
      rules decide in their order which sort of refusal there is. */
  lemma {:induction false} AcceptedIff(bodies: seq<seq<Op>>, v: Verdict)
    requires VerdictTells(bodies, v)
    ensures v.ChunksOk? <==> KeepsRules(bodies)
    ensures v.BadNegation? <==> !NegationsOk(bodies)
    ensures v.BadService? <==> NegationsOk(bodies) && !ServicesOk(bodies)
    ensures v.BadDep? <==> NegationsOk(bodies) && ServicesOk(bodies) && !DepsPlaced(bodies)
    ensures v.BadGate? <==> NegationsOk(bodies) && ServicesOk(bodies) && DepsPlaced(bodies) && !GatesLocal(bodies)
  {
    hide ValidNegation, DepsPlaced, GatesLocal, FirstMisplaced, FirstGate, FirstWatch, ChunkWith, Chain;
    match v {
      case BadNegation(c, k, i) => assert !NegationOk(bodies[c][k]);
      case BadRequirement(c, k) => assert !ScopesOk(bodies[c]);
      case _ =>
    }
  }
}
