/** The five rules of the pre-flight in the ops' own fields. */
module RuleMeaning {
  import opened Ops
  import opened DepGraphs
  import opened Guards
  import opened Requirements
  import opened ChunkChecks
  import opened PlanChecks
  import opened GuardMeaning

  /** Some op of chunk c carries id. */
  ghost predicate Carried(bodies: seq<seq<Op>>, c: nat, id: string) {
    c < |bodies| && exists k :: 0 <= k < |bodies[c]| && bodies[c][k].id == id
  }

  /** No empty ID, and the ID is carried by chunk c or an earlier one. */
  ghost predicate CarriedBy(bodies: seq<seq<Op>>, c: nat, id: string) {
    id != "" && exists d: nat :: d <= c && Carried(bodies, d, id)
  }

  /** No empty ID, and the first chunk to carry the ID is c. */
  ghost predicate CarriedFirst(bodies: seq<seq<Op>>, c: nat, id: string) {
    id != "" && Carried(bodies, c, id) && forall d: nat :: d < c ==> !Carried(bodies, d, id)
  }

  /** What one op of chunk c must keep. */
  ghost predicate OpKeeps(bodies: seq<seq<Op>>, c: nat, op: Op) {
    && (forall i :: 0 <= i < |op.all| && op.all[i].negated ==> op.kind.KindWhenBegin? && WellNegated(op.all[i]))
    && (op.kind.KindService? && op.kind.enableOnly ==> !op.kind.restart && !op.kind.reload && !op.ifChanged)
    && (forall d :: 0 <= d < |op.deps| ==> CarriedBy(bodies, c, op.deps[d]))
    && (op.ifChanged ==>
          op.watch != [] && forall w :: 0 <= w < |op.watch| ==> CarriedFirst(bodies, c, op.watch[w]))
  }

  lemma {:induction false} CarriedIff(bodies: seq<seq<Op>>, c: nat, id: string)
    requires c < |bodies|
    ensures Carried(bodies, c, id) <==> FirstIndex(bodies[c], id) >= 0
  {
  }

  lemma {:induction false} ChunkWithMeans(bodies: seq<seq<Op>>, c: nat, id: string)
    requires c < |bodies|
    ensures 0 <= ChunkWith(bodies, id) <= c <==> CarriedBy(bodies, c, id)
    ensures ChunkWith(bodies, id) == c <==> CarriedFirst(bodies, c, id)
  {
    forall d: nat | d < |bodies|
      ensures Carried(bodies, d, id) <==> FirstIndex(bodies[d], id) >= 0
    {
      CarriedIff(bodies, d, id);
    }
    hide Carried, FirstIndex;
    if id != "" {
      var at := FirstWith(bodies, id);
      assert ChunkWith(bodies, id) == at;
      assert at >= 0 ==> Carried(bodies, at, id);
    }
  }

  lemma {:induction false} OpKeepsIff(bodies: seq<seq<Op>>, c: nat, op: Op)
    requires c < |bodies|
    ensures OpKeeps(bodies, c, op) <==>
              NegationOk(op) && ServiceOk(op) && OpPlaced(bodies, c, op) && GateLocal(bodies, c, op)
  {
    forall i | 0 <= i < |op.all|
      ensures ValidNegation(op.all[i]) <==> WellNegated(op.all[i])
    {
      WellNegatedIff(op.all[i]);
    }
    forall id
      ensures DepPlaced(bodies, c, id) <==> CarriedBy(bodies, c, id)
      ensures WatchLocal(bodies, c, id) <==> CarriedFirst(bodies, c, id)
    {
      ChunkWithMeans(bodies, c, id);
    }
    hide ValidNegation, WellNegated, DepPlaced, WatchLocal, CarriedBy, CarriedFirst;
  }

  /** The pre-flight's rules: each op keeps its own, and each requirement and
      the blocks around it ask for host facts only. */
  lemma {:induction false} RulesMean(bodies: seq<seq<Op>>)
    ensures KeepsRules(bodies) <==>
              (forall c, k :: 0 <= c < |bodies| && 0 <= k < |bodies[c]| ==> OpKeeps(bodies, c, bodies[c][k])) &&
              (forall c, k :: 0 <= c < |bodies| && 0 <= k < |bodies[c]| && Requires(bodies[c][k]) ==>
                InScope(bodies[c], k))
  {
    forall c, k | 0 <= c < |bodies| && 0 <= k < |bodies[c]|
      ensures OpKeeps(bodies, c, bodies[c][k]) <==>
                && NegationOk(bodies[c][k]) && ServiceOk(bodies[c][k])
                && OpPlaced(bodies, c, bodies[c][k]) && GateLocal(bodies, c, bodies[c][k])
    {
      OpKeepsIff(bodies, c, bodies[c][k]);
    }
    forall c | 0 <= c < |bodies|
      ensures ScopesOk(bodies[c]) <==>
                forall k :: 0 <= k < |bodies[c]| && Requires(bodies[c][k]) ==> InScope(bodies[c], k)
    {
      ScopesMean(bodies[c]);
    }
    hide NegationOk, ServiceOk, OpPlaced, GateLocal, ScopesOk, Requires, InScope, OpKeeps;
  }
}
