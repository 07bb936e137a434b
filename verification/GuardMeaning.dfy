/** What guards, applies and requirement checks mean for the host, in terms of
    its facts, the paths that exist and the blocks an op lies in. */
module GuardMeaning {
  import opened Ops
  import opened Blocks
  import opened Enclosing
  import opened Guards
  import opened Interpreter
  import opened Requirements

  /** value is the one a predicate asks for, or one of those it lists. */
  ghost predicate Asked(value: string, p: Predicate) {
    if p.anyOf == [] then value == p.eq else exists i :: 0 <= i < |p.anyOf| && p.anyOf[i] == value
  }

  /** part lies in s from position i on. */
  predicate LiesIn(part: string, s: string, i: nat) {
    i + |part| <= |s| && forall j :: 0 <= j < |part| ==> s[i + j] == part[j]
  }

  ghost predicate Substring(part: string, s: string) {
    exists i: nat :: LiesIn(part, s, i)
  }

  /** The lower-cased hostname contains what is asked for, lower-cased too. */
  ghost predicate AskedInHostname(facts: Facts, p: Predicate) {
    if p.anyOf == [] then Substring(facts.lower(p.eq), facts.lower(facts.hostname))
    else exists i :: 0 <= i < |p.anyOf| && Substring(facts.lower(p.anyOf[i]), facts.lower(facts.hostname))
  }

  predicate Supported(goos: string) {
    goos == "linux" || goos == "darwin" || goos == "freebsd" || goos == "openbsd" || goos == "netbsd"
  }

  /** A well-formed negation: of the operating system alone, with one or some
      supported ones. */
  ghost predicate WellNegated(p: Predicate) {
    && p.fact == "goos" && p.pathExists == ""
    && (p.anyOf == [] ==> Supported(p.eq))
    && (p.anyOf != [] ==> p.eq == "" && forall i :: 0 <= i < |p.anyOf| ==> Supported(p.anyOf[i]))
  }

  ghost predicate Met(p: Predicate, facts: Facts, path: string -> Eval) {
    if p.negated then WellNegated(p) && Supported(facts.goos) && !Asked(facts.goos, p)
    else if p.pathExists != "" then path(p.pathExists) == Holds
    else
      || (p.fact == "goos" && Asked(facts.goos, p))
      || (p.fact == "profile" && Asked(facts.profile, p))
      || (p.fact == "hostname_contains" && AskedInHostname(facts, p))
  }

  ghost predicate Errs(p: Predicate, facts: Facts, path: string -> Eval) {
    if p.negated then !WellNegated(p) || !Supported(facts.goos)
    else if p.pathExists != "" then path(p.pathExists) == EvalError
    else p.fact != "goos" && p.fact != "profile" && p.fact != "hostname_contains"
  }

  lemma {:induction false} ContainsIff(s: string, part: string)
    ensures Contains(s, part) <==> Substring(part, s)
  {
    if part <= s {
      assert LiesIn(part, s, 0);
    }
    if LiesIn(part, s, 0) {
      assert part == s[..|part|];
    }
    if s != [] {
      ContainsIff(s[1..], part);
      if i: nat :| LiesIn(part, s[1..], i) {
        assert LiesIn(part, s, i + 1);
      }
      if i: nat :| LiesIn(part, s, i) && i > 0 {
        assert LiesIn(part, s[1..], i - 1);
      }
    }
  }

  /** Which operating systems a plan may name. */
  lemma {:induction false} ManagedIff(goos: string)
    ensures Managed(goos) <==> Supported(goos)
  {
  }

  /** A plain goos predicate looks at the host's operating system alone. */
  lemma {:induction false} GoosMeaning(p: Predicate, facts: Facts, path: string -> Eval)
    requires !p.negated && p.pathExists == "" && p.fact == "goos"
    ensures EvalPredicate(p, facts, path) ==
            if (if p.anyOf == [] then facts.goos == p.eq else facts.goos in p.anyOf) then Holds else Fails
  {
  }

  lemma {:induction false} ProfileMeaning(p: Predicate, facts: Facts, path: string -> Eval)
    requires !p.negated && p.pathExists == "" && p.fact == "profile"
    ensures EvalPredicate(p, facts, path) ==
            if (if p.anyOf == [] then facts.profile == p.eq else facts.profile in p.anyOf) then Holds else Fails
  {
  }

  lemma {:induction false} HostnameMeaning(p: Predicate, facts: Facts, path: string -> Eval)
    requires !p.negated && p.pathExists == "" && p.fact == "hostname_contains"
    ensures EvalPredicate(p, facts, path) == if AskedInHostname(facts, p) then Holds else Fails
  {
    forall s, part
      ensures Contains(s, part) <==> Substring(part, s)
    {
      ContainsIff(s, part);
    }
    hide Contains, Substring;
  }

  lemma {:induction false} WellNegatedIff(p: Predicate)
    ensures ValidNegation(p) <==> WellNegated(p)
  {
    forall goos
      ensures Managed(goos) <==> Supported(goos)
    {
      ManagedIff(goos);
    }
    hide Managed, Supported;
    if p.anyOf == [] && ValidNegation(p) {
      assert Managed(p.eq);
    }
  }

  /** A well-formed negation is the exact opposite of the plain predicate on a
      supported host; any other one errs. */
  lemma {:induction false} NegationMeaning(p: Predicate, facts: Facts, path: string -> Eval)
    requires p.negated
    ensures WellNegated(p) && Supported(facts.goos) ==>
              && EvalPredicate(p, facts, path) != EvalError
              && (EvalPredicate(p, facts, path) == Holds <==>
                    EvalPredicate(p.(negated := false), facts, path) == Fails)
    ensures !WellNegated(p) || !Supported(facts.goos) ==> EvalPredicate(p, facts, path) == EvalError
  {
    WellNegatedIff(p);
    ManagedIff(facts.goos);
    hide ValidNegation, Managed, Supported;
  }

  /** When a predicate holds and when it errs. */
  lemma {:induction false} PredicateMeaning(p: Predicate, facts: Facts, path: string -> Eval)
    ensures EvalPredicate(p, facts, path) == Holds <==> Met(p, facts, path)
    ensures EvalPredicate(p, facts, path) == EvalError <==> Errs(p, facts, path)
  {
    if p.negated {
      WellNegatedIff(p);
      ManagedIff(facts.goos);
      hide ValidNegation, WellNegated, Managed, Supported;
    } else if p.pathExists == "" && p.fact == "hostname_contains" {
      HostnameMeaning(p, facts, path);
      hide AskedInHostname, EvalFact;
    }
  }

  ghost predicate AllMet(preds: seq<Predicate>, facts: Facts, path: string -> Eval) {
    forall i :: 0 <= i < |preds| ==> Met(preds[i], facts, path)
  }

  /** The first predicate that is not met errs. */
  ghost predicate FirstErrs(preds: seq<Predicate>, facts: Facts, path: string -> Eval) {
    exists i :: 0 <= i < |preds| && Errs(preds[i], facts, path) && AllMet(preds[..i], facts, path)
  }

  /** A guard holds when all its predicates are met, and errs when the first
      that is not met errs. */
  lemma {:induction false} GuardMeans(preds: seq<Predicate>, facts: Facts, path: string -> Eval)
    ensures EvalAll(preds, facts, path) == Holds <==> AllMet(preds, facts, path)
    ensures EvalAll(preds, facts, path) == EvalError <==> FirstErrs(preds, facts, path)
  {
    hide Met, Errs, EvalPredicate;
    if preds != [] {
      var rest := preds[1..];
      PredicateMeaning(preds[0], facts, path);
      GuardMeans(rest, facts, path);
      assert forall i :: 0 <= i < |rest| ==> preds[i + 1] == rest[i];
      assert forall i :: 0 < i < |preds| ==> preds[i] == rest[i - 1];
      FirstErrsRest(preds, facts, path);
    }
  }

  lemma {:induction false} FirstErrsRest(preds: seq<Predicate>, facts: Facts, path: string -> Eval)
    requires preds != []
    ensures FirstErrs(preds, facts, path) <==>
              Errs(preds[0], facts, path) || (Met(preds[0], facts, path) && FirstErrs(preds[1..], facts, path))
  {
    hide Met, Errs;
    var rest := preds[1..];
    assert AllMet(preds[..0], facts, path);
    if i :| 0 <= i < |preds| && Errs(preds[i], facts, path) && AllMet(preds[..i], facts, path) {
      if i > 0 {
        assert preds[..i] == [preds[0]] + rest[..i - 1] && rest[i - 1] == preds[i];
      }
    }
    if Met(preds[0], facts, path) {
      if i :| 0 <= i < |rest| && Errs(rest[i], facts, path) && AllMet(rest[..i], facts, path) {
        assert preds[..i + 1] == [preds[0]] + rest[..i] && preds[i + 1] == rest[i];
        assert AllMet(preds[..i + 1], facts, path);
      }
    }
  }

  predicate IsResource(op: Op) {
    !op.kind.KindPlan? && !op.kind.KindWhenBegin? && !op.kind.KindWhenEnd?
  }

  /** Every block around line k has a guard that is met when it is reached. */
  ghost predicate BlocksMet(ops: seq<Op>, facts: Facts, world: seq<Moment>, k: nat)
    requires k <= |ops| == |world|
  {
    forall i: nat :: Encloses(ops, i, k) ==> AllMet(ops[i].all, facts, world[i].path)
  }

  /** Whether a line is active is decided by the blocks around it. */
  lemma {:induction false} ActiveMeans(ops: seq<Op>, facts: Facts, world: seq<Moment>, k: nat)
    requires k <= |ops| == |world|
    ensures Active(ops, facts, world, k) <==> BlocksMet(ops, facts, world, k)
  {
    hide OpenBefore, Encloses, AllMet, EvalAll;
    var open := OpenBefore(ops, k);
    forall i: nat | Encloses(ops, i, k)
      ensures i in open && (GuardAt(ops, facts, world, i) == Holds <==> AllMet(ops[i].all, facts, world[i].path))
    {
      OpenIff(ops, i, k);
      GuardMeans(ops[i].all, facts, world[i].path);
    }
    forall p | 0 <= p < |open|
      ensures Encloses(ops, open[p], k)
    {
      OpenIff(ops, open[p], k);
    }
  }

  /** What it takes for the apply to go past line k. */
  ghost predicate Passable(ops: seq<Op>, facts: Facts, world: seq<Moment>, k: nat)
    requires k < |ops| == |world|
  {
    && !world[k].cancelled && !ops[k].kind.KindPlan?
    && (ops[k].kind.KindWhenBegin? && BlocksMet(ops, facts, world, k) ==>
          && !FirstErrs(ops[k].all, facts, world[k].path)
          && (ops[k].require != "" ==> AllMet(ops[k].all, facts, world[k].path)))
    && (ops[k].kind.KindWhenEnd? ==> exists i: nat :: Encloses(ops, i, k))
    && (IsResource(ops[k]) && BlocksMet(ops, facts, world, k) ==> world[k].works)
  }

  /** How and where the apply ended, said of the line itself. */
  ghost predicate EndsSo(ops: seq<Op>, facts: Facts, world: seq<Moment>, end: End)
    requires |ops| == |world|
  {
    match end
    case Finished => forall i: nat :: !Encloses(ops, i, |ops|)
    case Unclosed => exists i: nat :: Encloses(ops, i, |ops|)
    case Cancelled(k) => k < |ops| && world[k].cancelled
    case GuardError(k) =>
      && k < |ops| && !world[k].cancelled && ops[k].kind.KindWhenBegin? && BlocksMet(ops, facts, world, k)
      && FirstErrs(ops[k].all, facts, world[k].path)
    case Unmet(k) =>
      && k < |ops| && !world[k].cancelled && ops[k].kind.KindWhenBegin? && ops[k].require != ""
      && BlocksMet(ops, facts, world, k)
      && !AllMet(ops[k].all, facts, world[k].path) && !FirstErrs(ops[k].all, facts, world[k].path)
    case NoBegin(k) =>
      k < |ops| && !world[k].cancelled && ops[k].kind.KindWhenEnd? && forall i: nat :: !Encloses(ops, i, k)
    case SecondHeader(k) => k < |ops| && !world[k].cancelled && ops[k].kind.KindPlan?
    case OpFailed(k) =>
      && k < |ops| && !world[k].cancelled && IsResource(ops[k]) && BlocksMet(ops, facts, world, k)
      && !world[k].works
  }

  /** The number of lines an apply with this end went past. */
  function LinesPassed(ops: seq<Op>, end: End): nat {
    if end.Finished? || end.Unclosed? then |ops| else end.at
  }

  lemma {:induction false} NothingOpenIff(ops: seq<Op>, k: nat)
    requires k <= |ops|
    ensures OpenBefore(ops, k) == [] <==> forall i: nat :: !Encloses(ops, i, k)
  {
    hide Encloses;
    var open := OpenBefore(ops, k);
    if open != [] {
      OpenIff(ops, open[0], k);
    }
    forall i: nat | Encloses(ops, i, k)
      ensures open != []
    {
      OpenIff(ops, i, k);
    }
  }

  lemma {:induction false} PassableIff(ops: seq<Op>, facts: Facts, world: seq<Moment>, k: nat)
    requires k < |ops| == |world|
    ensures LineEnd(ops, facts, world, k) == Finished <==> Passable(ops, facts, world, k)
    ensures LineEnd(ops, facts, world, k) != Finished ==> EndsSo(ops, facts, world, LineEnd(ops, facts, world, k))
  {
    ActiveMeans(ops, facts, world, k);
    NothingOpenIff(ops, k);
    GuardMeans(ops[k].all, facts, world[k].path);
    hide Active, BlocksMet, OpenBefore, Encloses, AllMet, FirstErrs, EvalAll;
  }

  lemma {:induction false} AppliedMember(ops: seq<Op>, facts: Facts, world: seq<Moment>, n: nat, k: nat)
    requires n <= |ops| == |world|
    ensures k in Executed(ops, facts, world, n) <==>
              k < n && IsResource(ops[k]) && BlocksMet(ops, facts, world, k)
    ensures forall i, j :: 0 <= i < j < |Executed(ops, facts, world, n)| ==>
              Executed(ops, facts, world, n)[i] < Executed(ops, facts, world, n)[j] < n
  {
    hide Active, BlocksMet;
    if n > 0 {
      AppliedMember(ops, facts, world, n - 1, k);
      ActiveMeans(ops, facts, world, n - 1);
      ExecutedBelow(ops, facts, world, n - 1);
    }
  }

  lemma {:induction false} ExecutedBelow(ops: seq<Op>, facts: Facts, world: seq<Moment>, n: nat)
    requires n <= |ops| == |world|
    ensures forall i :: 0 <= i < |Executed(ops, facts, world, n)| ==> Executed(ops, facts, world, n)[i] < n
  {
    hide Active;
    if n > 0 {
      ExecutedBelow(ops, facts, world, n - 1);
    }
  }

  /** What an apply does: it goes past every line that can be passed and ends
      at the first that cannot, for that line's own reason; and a resource op
      is applied exactly if it was passed and every guard around it was met
      when it was reached, in the order of the lines. */
  lemma {:induction false} ApplyMeans(ops: seq<Op>, facts: Facts, world: seq<Moment>, applied: seq<nat>, end: End)
    requires |ops| == |world| && Applies(ops, facts, world, applied, end)
    ensures LinesPassed(ops, end) <= |ops| && EndsSo(ops, facts, world, end)
    ensures forall k: nat :: k < LinesPassed(ops, end) ==> Passable(ops, facts, world, k)
    ensures forall k: nat :: k in applied <==>
              k < LinesPassed(ops, end) && IsResource(ops[k]) && BlocksMet(ops, facts, world, k)
    ensures forall i, j :: 0 <= i < j < |applied| ==> applied[i] < applied[j]
  {
    hide LineEnd, Executed, BlocksMet, Passable, Encloses, OpenBefore, EndsSo, IsResource;
    var n := LinesPassed(ops, end);
    forall k: nat | k < n
      ensures Passable(ops, facts, world, k)
    {
      PassableIff(ops, facts, world, k);
    }
    forall k: nat
      ensures k in applied <==> k < n && IsResource(ops[k]) && BlocksMet(ops, facts, world, k)
    {
      AppliedMember(ops, facts, world, n, k);
    }
    AppliedMember(ops, facts, world, n, 0);
    EndMeans(ops, facts, world, applied, end);
  }

  lemma {:induction false} EndMeans(ops: seq<Op>, facts: Facts, world: seq<Moment>, applied: seq<nat>, end: End)
    requires |ops| == |world| && Applies(ops, facts, world, applied, end)
    ensures EndsSo(ops, facts, world, end)
  {
    hide LineEnd, Executed, BlocksMet, Encloses, OpenBefore;
    if end.Finished? || end.Unclosed? {
      NothingOpenIff(ops, |ops|);
    } else {
      hide EndsSo;
      PassableIff(ops, facts, world, end.at);
      LineEndNot(ops, facts, world, end.at);
    }
  }

  lemma {:induction false} LineEndNot(ops: seq<Op>, facts: Facts, world: seq<Moment>, k: nat)
    requires k < |ops| == |world|
    ensures LineEnd(ops, facts, world, k) != Unclosed
  {
  }

  /** A guard over host facts alone, in the facts themselves. */
  lemma {:induction false} AppliedOnFacts(ops: seq<Op>, facts: Facts, world: seq<Moment>, applied: seq<nat>, end: End,
                                          k: nat, i: nat, j: nat)
    requires |ops| == |world| && Applies(ops, facts, world, applied, end) && k in applied
    requires Encloses(ops, i, k) && j < |ops[i].all|
    requires !ops[i].all[j].negated && ops[i].all[j].pathExists == ""
    ensures var p := ops[i].all[j];
            || (p.fact == "goos" && if p.anyOf == [] then facts.goos == p.eq else facts.goos in p.anyOf)
            || (p.fact == "profile" && if p.anyOf == [] then facts.profile == p.eq else facts.profile in p.anyOf)
            || (p.fact == "hostname_contains" && AskedInHostname(facts, p))
  {
    hide Applies, Encloses, AskedInHostname;
    EnclosesRange(ops, i, k);
    ApplyMeans(ops, facts, world, applied, end);
    assert AllMet(ops[i].all, facts, world[i].path);
    assert Met(ops[i].all[j], facts, world[i].path);
  }

  /** A guard that asks for host facts only. */
  ghost predicate OnFacts(op: Op) {
    forall j :: 0 <= j < |op.all| ==>
      op.all[j].pathExists == "" &&
      (op.all[j].fact == "goos" || op.all[j].fact == "profile" || op.all[j].fact == "hostname_contains")
  }

  predicate Requires(op: Op) {
    op.kind.KindWhenBegin? && op.require != ""
  }

  /** A requirement and every block around it ask for host facts only. */
  ghost predicate InScope(ops: seq<Op>, k: nat)
    requires k < |ops|
  {
    OnFacts(ops[k]) && forall i: nat :: Encloses(ops, i, k) ==> OnFacts(ops[i])
  }

  lemma {:induction false} ChainMeans(ops: seq<Op>, k: nat)
    requires k < |ops| && ops[k].kind.KindWhenBegin?
    ensures HostChain(Chain(ops, k)) <==> InScope(ops, k)
  {
    hide OpenBefore, Encloses, HostFact;
    var open, chain := OpenBefore(ops, k), Chain(ops, k);
    ChainEnds(ops, k);
    OnFactsIff(ops[k]);
    assert chain[|open|] == ops[k];
    forall i: nat | Encloses(ops, i, k)
      ensures i in open && i < |ops| && (HostOnly(ops[i]) <==> OnFacts(ops[i]))
    {
      EnclosesRange(ops, i, k);
      OpenIff(ops, i, k);
      OnFactsIff(ops[i]);
    }
    forall p | 0 <= p < |open|
      ensures Encloses(ops, open[p], k) && chain[p] == ops[open[p]]
    {
      OpenIff(ops, open[p], k);
    }
    hide HostOnly, OnFacts, Chain;
    assert forall i: nat :: Encloses(ops, i, k) ==> exists p :: 0 <= p < |open| && chain[p] == ops[i];
  }

  lemma {:induction false} OnFactsIff(op: Op)
    ensures HostOnly(op) <==> OnFacts(op)
  {
  }

  /** The scope rule in the guards' own terms. */
  lemma {:induction false} ScopesMean(ops: seq<Op>)
    ensures ScopesOk(ops) <==> forall k :: 0 <= k < |ops| && Requires(ops[k]) ==> InScope(ops, k)
  {
    hide HostChain, Chain, InScope;
    forall k | 0 <= k < |ops| && Requires(ops[k])
      ensures HostChain(Chain(ops, k)) <==> InScope(ops, k)
    {
      ChainMeans(ops, k);
    }
  }

  /** Nothing a requirement check looks at is wrong with line k: it is no
      when_begin reached with its blocks met, or its guard does not err and,
      for a requirement, is met. */
  ghost predicate Satisfied(ops: seq<Op>, facts: Facts, world: seq<Moment>, k: nat)
    requires k < |ops| == |world|
  {
    ops[k].kind.KindWhenBegin? && BlocksMet(ops, facts, world, k) ==>
      && !FirstErrs(ops[k].all, facts, world[k].path)
      && (ops[k].require != "" ==> AllMet(ops[k].all, facts, world[k].path))
  }

  lemma {:induction false} RefusesIff(ops: seq<Op>, facts: Facts, world: seq<Moment>, k: nat)
    requires k < |ops| == |world|
    ensures GuardRefuses(ops, facts, world, k) <==> !Satisfied(ops, facts, world, k)
    ensures GuardRefuses(ops, facts, world, k) ==>
              ops[k].kind.KindWhenBegin? &&
              (GuardAt(ops, facts, world, k) == EvalError <==> FirstErrs(ops[k].all, facts, world[k].path))
  {
    ActiveMeans(ops, facts, world, k);
    GuardMeans(ops[k].all, facts, world[k].path);
    hide Active, BlocksMet, AllMet, FirstErrs, EvalAll;
  }

  /** What the requirement check accepts and refuses, in the host's terms. */
  lemma {:induction false} CheckMeans(ops: seq<Op>, facts: Facts, world: seq<Moment>, r: Check)
    requires |ops| == |world| && Checks(ops, facts, world, r)
    ensures r.CheckOk? <==>
              (forall k :: 0 <= k < |ops| ==> ops[k].require == "") ||
              ((forall k :: 0 <= k < |ops| && Requires(ops[k]) ==> InScope(ops, k)) &&
               (forall k :: 0 <= k < |ops| ==> Satisfied(ops, facts, world, k)))
    ensures r.BadScope? ==> r.at < |ops| && Requires(ops[r.at]) && !InScope(ops, r.at)
    ensures r.CheckError? ==> r.at < |ops| && !Satisfied(ops, facts, world, r.at) &&
                              FirstErrs(ops[r.at].all, facts, world[r.at].path)
    ensures r.CheckUnmet? ==> r.at < |ops| && !Satisfied(ops, facts, world, r.at) && Requires(ops[r.at]) &&
                              !FirstErrs(ops[r.at].all, facts, world[r.at].path)
    ensures r.CheckError? || r.CheckUnmet? ==> forall k :: 0 <= k < r.at ==> Satisfied(ops, facts, world, k)
  {
    ScopesMean(ops);
    forall k: nat | k < |ops|
      ensures GuardRefuses(ops, facts, world, k) <==> !Satisfied(ops, facts, world, k)
    {
      RefusesIff(ops, facts, world, k);
    }
    hide GuardRefuses, Satisfied, InScope, ScopesOk, GuardAt, FirstErrs;
    match r {
      case CheckOk =>
      case BadScope(at) =>
        BadScopeMeans(ops, at);
      case CheckError(at) =>
        RefusesIff(ops, facts, world, at);
      case CheckUnmet(at) =>
        RefusesIff(ops, facts, world, at);
    }
  }

  lemma {:induction false} BadScopeMeans(ops: seq<Op>, k: nat)
    requires FirstBadScope(ops, k)
    ensures k < |ops| && Requires(ops[k]) && !InScope(ops, k)
  {
    hide Chain, HostChain, InScope;
    ChainMeans(ops, k);
  }
}
