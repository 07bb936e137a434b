/** Guard predicates of plan/apply.go: evalAll, evalPredicate, evalFact and
    the two matchers. */
module Guards {
  import opened Ops

  datatype Eval = Holds | Fails | EvalError

  /** The host an apply runs on.  lower stands for Unicode lower-casing. */
  datatype Facts = Facts(goos: string, profile: string, hostname: string, lower: string -> string)

  /** The operating systems gonf manages. */
  const MANAGED_OS := ["linux", "darwin", "freebsd", "openbsd", "netbsd"]

  predicate Managed(goos: string) {
    goos in MANAGED_OS
  }

  predicate MatchesEqOrIn(value: string, eq: string, anyOf: seq<string>) {
    if |anyOf| > 0 then value in anyOf else value == eq
  }

  predicate Contains(s: string, part: string) {
    part <= s || (s != [] && Contains(s[1..], part))
  }

  predicate MatchesContainsOrIn(facts: Facts, eq: string, anyOf: seq<string>) {
    var host := facts.lower(facts.hostname);
    if |anyOf| > 0 then exists i :: 0 <= i < |anyOf| && Contains(host, facts.lower(anyOf[i]))
    else Contains(host, facts.lower(eq))
  }

  function Truth(b: bool): Eval {
    if b then Holds else Fails
  }

  function EvalFact(name: string, eq: string, anyOf: seq<string>, facts: Facts): Eval {
    if name == "goos" then Truth(MatchesEqOrIn(facts.goos, eq, anyOf))
    else if name == "profile" then Truth(MatchesEqOrIn(facts.profile, eq, anyOf))
    else if name == "hostname_contains" then Truth(MatchesContainsOrIn(facts, eq, anyOf))
    else EvalError
  }

  /** A negated predicate may only test the operating system against managed
      ones, with eq or in but not both. */
  predicate ValidNegation(p: Predicate) {
    && p.fact == "goos" && p.pathExists == "" && (p.eq == "" || |p.anyOf| == 0)
    && if |p.anyOf| == 0 then Managed(p.eq) else forall i :: 0 <= i < |p.anyOf| ==> Managed(p.anyOf[i])
  }

  /** path answers whether a path exists; it may answer with an error. */
  function EvalPredicate(p: Predicate, facts: Facts, path: string -> Eval): Eval {
    if p.negated then
      if !ValidNegation(p) || !Managed(facts.goos) then EvalError
      else Truth(!MatchesEqOrIn(facts.goos, p.eq, p.anyOf))
    else if p.pathExists != "" then path(p.pathExists)
    else if p.fact != "" then EvalFact(p.fact, p.eq, p.anyOf, facts)
    else EvalError
  }

  /** The first predicate that does not hold decides. */
  function EvalAll(preds: seq<Predicate>, facts: Facts, path: string -> Eval): Eval {
    if preds == [] then Holds
    else
      var first := EvalPredicate(preds[0], facts, path);
      if first == Holds then EvalAll(preds[1..], facts, path) else first
  }

  /** A predicate that only asks for a host fact. */
  predicate HostFact(p: Predicate) {
    p.pathExists == "" && (p.fact == "goos" || p.fact == "profile" || p.fact == "hostname_contains")
  }

  predicate HostOnly(op: Op) {
    forall i :: 0 <= i < |op.all| ==> HostFact(op.all[i])
  }

  /** Host facts evaluate the same whatever paths exist. */
  lemma {:induction false} HostSame(preds: seq<Predicate>, facts: Facts, path: string -> Eval, other: string -> Eval)
    requires forall i :: 0 <= i < |preds| ==> HostFact(preds[i])
    ensures EvalAll(preds, facts, path) == EvalAll(preds, facts, other)
  {
    if preds != [] {
      assert HostFact(preds[0]);
      HostSame(preds[1..], facts, path, other);
    }
  }

  /** A guard holds exactly when each of its predicates does. */
  lemma {:induction false} AllHold(preds: seq<Predicate>, facts: Facts, path: string -> Eval)
    ensures EvalAll(preds, facts, path) == Holds <==>
            forall i :: 0 <= i < |preds| ==> EvalPredicate(preds[i], facts, path) == Holds
  {
    if preds != [] {
      AllHold(preds[1..], facts, path);
      assert forall i :: 0 <= i < |preds| - 1 ==> preds[1..][i] == preds[i + 1];
      assert forall i :: 0 < i < |preds| ==> preds[i] == preds[1..][i - 1];
    }
  }

  /** nonHostFactCondition: the first predicate that is not a host fact. */
  method NonHostFactCondition(op: Op) returns (at: Option<nat>)
    ensures at.None? <==> HostOnly(op)
    ensures at.Some? ==> at.value < |op.all| && !HostFact(op.all[at.value]) &&
                         forall i :: 0 <= i < at.value ==> HostFact(op.all[i])
  {
    for i := 0 to |op.all|
      invariant forall j :: 0 <= j < i ==> HostFact(op.all[j])
    {
      if !HostFact(op.all[i]) {
        return Some(i);
      }
    }
    at := None;
  }
}
