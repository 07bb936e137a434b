/** The when-blocks of a recorded plan, on the plan's own lines: what the lines
    around a guarded body carry, and where its ops are applied. */
module RecordedGuards {
  import opened Ops
  import opened Blocks
  import opened Enclosing
  import opened Guards
  import opened Interpreter
  import opened GuardMeaning
  import opened Tasks
  import opened Records
  import opened RecordLaws
  import opened RecordSpans
  import opened RecordLists

  /** The recorded body of a guarded task begins with a when_begin that carries
      the guard and the task's privilege and requires nothing, and ends with a
      when_end of that privilege. */
  lemma {:induction false} GuardedLines(reg: Registry, plan: seq<Op>, s: Span)
    requires Complete(reg, plan, 0, s) && s.task in reg && reg[s.task].guard != []
    ensures s.from + 2 <= s.to <= |plan|
    ensures var t, begin := reg[s.task], plan[s.from];
            && begin.kind.KindWhenBegin? && begin.id == "when." + s.task && begin.all == t.guard
            && begin.elevate == t.privileged && begin.require == ""
            && begin.deps == [] && !begin.ifChanged && begin.watch == []
    ensures var t, end := reg[s.task], plan[s.to - 1];
            && end.kind.KindWhenEnd? && end.elevate == t.privileged && end.id == "" && end.all == []
            && end.require == "" && end.deps == [] && !end.ifChanged && end.watch == []
    ensures plan[s.from + 1..s.to - 1] == BodyOps(reg, s.body)
  {
    hide BodyOps;
    var inner, part := BodyOps(reg, s.body), plan[s.from..s.to];
    assert part == Envelope(reg, s.task, inner);
    assert part[0] == plan[s.from] && part[|part| - 1] == plan[s.to - 1];
    assert part[1..|part| - 1] == inner && part[1..|part| - 1] == plan[s.from + 1..s.to - 1];
  }

  /** Without a guard nothing is added around a body. */
  lemma {:induction false} UnguardedLines(reg: Registry, plan: seq<Op>, s: Span)
    requires Complete(reg, plan, 0, s) && s.task in reg && reg[s.task].guard == []
    ensures s.from <= s.to <= |plan| && plan[s.from..s.to] == BodyOps(reg, s.body)
  {
    hide BodyOps;
  }

  /** A when_begin in front of a balanced part encloses each of its lines. */
  lemma {:induction false} EnclosesPart(ops: seq<Op>, i: nat, e: nat, k: nat)
    requires i < k <= e <= |ops| && ops[i].kind.KindWhenBegin? && Balanced(ops[i + 1..e])
    ensures Encloses(ops, i, k)
  {
    hide Balanced, Net;
    var a := i + 1;
    forall j | a <= j <= k
      ensures Net(ops, a, j) >= 0
    {
      BalancedNet(ops[a..e], j - a);
      NetInPart(ops, a, e, j - a);
    }
  }

  lemma {:induction false} SpanBody(reg: Registry, spans: seq<Span>, i: nat)
    requires AllInOrder(reg, [], spans) && i < |spans| && EmitsBalanced(reg)
    ensures spans[i].task in reg && Balanced(BodyOps(reg, spans[i].body))
  {
    hide Balanced, BodyOps, LegalBody, NamesDone, EmitsBalanced;
    var s := spans[i];
    assert InOrder(reg, [] + spans[..i], s);
    var env :| LegalBody(reg, env, s.task, s.body);
    BodyBalanced(reg, env, s.task, s.body);
  }

  lemma {:induction false} ListFacts(reg: Registry, plan: seq<Op>, l: Listing, i: nat)
    requires Disciplined(reg, plan, l) && i < |StepsSpans(reg, l.steps, l.at)|
    ensures AllInOrder(reg, [], StepsSpans(reg, l.steps, l.at))
    ensures Complete(reg, plan, 0, StepsSpans(reg, l.steps, l.at)[i])
    ensures l.at <= StepsSpans(reg, l.steps, l.at)[i].from
  {
    StepsComplete(reg, l.steps, l.at);
    hide Complete, AllInOrder, TreesOnce, PatternsHarmless, NamesDone, ListedIn, Recordable, StepsSpans, StepsOps;
    CompleteBounds(reg, StepsOps(reg, l.steps), l.at, StepsSpans(reg, l.steps, l.at)[i]);
  }

  lemma {:induction false} CompleteBounds(reg: Registry, ops: seq<Op>, at: nat, s: Span)
    requires Complete(reg, ops, at, s)
    ensures at <= s.from
  {
  }

  /** An op recorded inside a guarded body, by its own task or by what that
      task runs or lists, is applied only where the guard is met. */
  lemma {:induction false} GuardedApplies(reg: Registry, plan: seq<Op>, l: Listing, i: nat, facts: Facts,
                                          world: seq<Moment>, applied: seq<nat>, end: End, k: nat)
    requires Disciplined(reg, plan, l) && EmitsBalanced(reg) && l.at >= 1 && |world| == |plan| - 1
    requires i < |StepsSpans(reg, l.steps, l.at)| && Applies(plan[1..], facts, world, applied, end) && k in applied
    requires var s := StepsSpans(reg, l.steps, l.at)[i]; s.task in reg && s.from <= k + 1 < s.to
    ensures var s := StepsSpans(reg, l.steps, l.at)[i];
            1 <= s.from <= |world| && AllMet(reg[s.task].guard, facts, world[s.from - 1].path)
  {
    hide *;
    var s, body := StepsSpans(reg, l.steps, l.at)[i], plan[1..];
    ListFacts(reg, plan, l, i);
    SpanBody(reg, StepsSpans(reg, l.steps, l.at), i);
    CompleteEnds(reg, plan, s);
    if reg[s.task].guard == [] {
      NothingAsked(facts, world[s.from - 1].path);
    } else {
      GuardedLines(reg, plan, s);
      ApplyMeans(body, facts, world, applied, end);
      ResourceLine(body, facts, world, end, k);
      assert body[s.from - 1] == plan[s.from] && body[s.to - 2] == plan[s.to - 1];
      assert body[s.from..s.to - 2] == plan[s.from + 1..s.to - 1];
      assert k != s.from - 1 && k != s.to - 2;
      EnclosesPart(body, s.from - 1, s.to - 2, k);
      MetAround(body, facts, world, k, s.from - 1);
    }
  }

  lemma {:induction false} CompleteEnds(reg: Registry, plan: seq<Op>, s: Span)
    requires Complete(reg, plan, 0, s)
    ensures s.from <= s.to <= |plan|
  {
  }

  lemma {:induction false} NothingAsked(facts: Facts, path: string -> Eval)
    ensures AllMet([], facts, path)
  {
  }

  lemma {:induction false} ResourceLine(ops: seq<Op>, facts: Facts, world: seq<Moment>, end: End, k: nat)
    requires LinesPassed(ops, end) <= |ops| == |world| && k < LinesPassed(ops, end)
    requires IsResource(ops[k])
    ensures !ops[k].kind.KindWhenBegin? && !ops[k].kind.KindWhenEnd?
  {
  }

  lemma {:induction false} MetAround(ops: seq<Op>, facts: Facts, world: seq<Moment>, k: nat, i: nat)
    requires k <= |ops| == |world| && BlocksMet(ops, facts, world, k) && Encloses(ops, i, k)
    ensures i < |ops| && AllMet(ops[i].all, facts, world[i].path)
  {
    hide AllMet;
  }

  /** Every Run list of a recorded plan begins behind the header. */
  lemma {:induction false} ListsBehindHeader(reg: Registry, names: seq<string>, steps: seq<Step>, i: nat)
    requires LegalSteps(reg, ListEnv(), ByList, names, steps) && i < |AllLists(reg, names, steps, 1)|
    ensures AllLists(reg, names, steps, 1)[i].at >= 1
  {
    hide *;
    StepsListed(reg, ListEnv(), ByList, names, steps, 1);
    OutermostListed(reg, names, steps, 1);
    ListedAt(reg, StepsOps(reg, steps), 1, AllLists(reg, names, steps, 1), i);
    ListedFrom(reg, StepsOps(reg, steps), 1, AllLists(reg, names, steps, 1)[i]);
  }

  lemma {:induction false} ListedFrom(reg: Registry, ops: seq<Op>, at: nat, l: Listing)
    requires ListedIn(reg, ops, at, l)
    ensures at <= l.at
  {
    hide LegalSteps, StepsOps;
  }
}
