/** Where each task body of a recorded list lies in the plan: every body is
    complete, comes after the complete bodies of its needs, and inside an
    aggregate tree no task is recorded twice. */
module RecordSpans {
  import opened Walks
  import opened Ops
  import opened Tasks
  import opened Records
  import opened RecordLaws

  /** The lines from..to of the plan are the body of task. */
  datatype Span = Span(task: string, body: Body, from: nat, to: nat)

  /** The lines a guard puts in front of a body. */
  function Lead(reg: Registry, task: string): nat {
    if task in reg && reg[task].guard != [] then 1 else 0
  }

  /** The bodies a record adds, in the order they are completed, when its first
      line is at.  A nested Run list of a plain body is a list of its own. */
  function RecordSpans(reg: Registry, r: Record, at: nat): seq<Span>
    decreases r
  {
    var from := at + |StepsOps(reg, r.needs)|;
    StepsSpans(reg, r.needs, at) + BodySpans(reg, r.body, from + Lead(reg, r.task)) +
    [Span(r.task, r.body, from, at + |RecordOps(reg, r)|)]
  }

  function BodySpans(reg: Registry, body: Body, at: nat): seq<Span>
    decreases body
  {
    match body
    case Plain(_) => []
    case Members(members) => StepsSpans(reg, members, at)
  }

  function StepsSpans(reg: Registry, steps: seq<Step>, at: nat): seq<Span>
    decreases steps
  {
    if steps == [] then []
    else
      var rest := steps[..|steps| - 1];
      StepsSpans(reg, rest, at) + StepSpans(reg, steps[|steps| - 1], at + |StepsOps(reg, rest)|)
  }

  function StepSpans(reg: Registry, step: Step, at: nat): seq<Span>
    decreases step
  {
    match step
    case Skip => []
    case Take(r) => RecordSpans(reg, r, at)
  }

  /** What there is to know of the last of some steps. */
  lemma {:induction false} LastStep(reg: Registry, env: Env, mode: Mode, names: seq<string>, steps: seq<Step>, at: nat)
    requires LegalSteps(reg, env, mode, names, steps) && steps != []
    ensures var n := |steps| - 1;
            && |names| == |steps| && LegalSteps(reg, env, mode, names[..n], steps[..n])
            && LegalStep(reg, After(env, mode, steps[..n]), mode, names[n], steps[n])
            && After(env, mode, steps) == AfterStep(After(env, mode, steps[..n]), mode, steps[n])
            && StepsSpans(reg, steps, at) ==
                 StepsSpans(reg, steps[..n], at) + StepSpans(reg, steps[n], at + |StepsOps(reg, steps[..n])|)
  {
    hide LegalStep, StepSpans, AfterStep;
  }

  /** The lines of a span, in a plan whose line at is ops[0], are the whole
      body inside its when-block and nothing else. */
  predicate Complete(reg: Registry, ops: seq<Op>, at: nat, s: Span) {
    at <= s.from <= s.to <= at + |ops| && ops[s.from - at..s.to - at] == Envelope(reg, s.task, BodyOps(reg, s.body))
  }

  predicate AllComplete(reg: Registry, ops: seq<Op>, at: nat, spans: seq<Span>) {
    forall i :: 0 <= i < |spans| ==> Complete(reg, ops, at, spans[i])
  }

  /** A complete span stays complete when lines are added around it. */
  lemma {:induction false} StillComplete(reg: Registry, front: seq<Op>, ops: seq<Op>, back: seq<Op>, at: nat, s: Span)
    requires Complete(reg, ops, at + |front|, s)
    ensures Complete(reg, front + ops + back, at, s)
  {
    hide Envelope, BodyOps;
    var all, a, b := front + ops + back, s.from - at, s.to - at;
    assert all[a..b] == ops[a - |front|..b - |front|];
  }

  lemma {:induction false} AllStillComplete(reg: Registry, front: seq<Op>, ops: seq<Op>, back: seq<Op>, at: nat,
                                            spans: seq<Span>)
    requires AllComplete(reg, ops, at + |front|, spans)
    ensures AllComplete(reg, front + ops + back, at, spans)
  {
    hide Complete;
    forall i | 0 <= i < |spans|
      ensures Complete(reg, front + ops + back, at, spans[i])
    {
      StillComplete(reg, front, ops, back, at, spans[i]);
    }
  }

  lemma {:induction false} CompleteConcat(reg: Registry, a: seq<Op>, b: seq<Op>, at: nat, x: seq<Span>, y: seq<Span>)
    requires AllComplete(reg, a, at, x) && AllComplete(reg, b, at + |a|, y)
    ensures AllComplete(reg, a + b, at, x + y)
  {
    AllStillComplete(reg, [], a, b, at, x);
    AllStillComplete(reg, a, b, [], at, y);
    assert [] + a + b == a + b && a + b + [] == a + b;
    hide Complete;
  }

  lemma {:induction false} StepsComplete(reg: Registry, steps: seq<Step>, at: nat)
    ensures AllComplete(reg, StepsOps(reg, steps), at, StepsSpans(reg, steps, at))
    decreases steps
  {
    hide AllComplete, StepSpans, StepOps;
    if steps == [] {
      NoneComplete(reg, at);
    } else {
      var rest, last := steps[..|steps| - 1], steps[|steps| - 1];
      StepsComplete(reg, rest, at);
      StepComplete(reg, last, at + |StepsOps(reg, rest)|);
      CompleteConcat(reg, StepsOps(reg, rest), StepOps(reg, last), at, StepsSpans(reg, rest, at),
                     StepSpans(reg, last, at + |StepsOps(reg, rest)|));
    }
  }

  lemma {:induction false} NoneComplete(reg: Registry, at: nat)
    ensures AllComplete(reg, [], at, [])
  {
  }

  lemma {:induction false} StepComplete(reg: Registry, step: Step, at: nat)
    ensures AllComplete(reg, StepOps(reg, step), at, StepSpans(reg, step, at))
    decreases step
  {
    hide AllComplete, RecordOps, RecordSpans;
    NoneComplete(reg, at);
    if step.Take? {
      RecordComplete(reg, step.record, at);
    }
  }

  lemma {:induction false} RecordComplete(reg: Registry, r: Record, at: nat)
    ensures AllComplete(reg, RecordOps(reg, r), at, RecordSpans(reg, r, at))
    decreases r
  {
    hide AllComplete, StepsOps, BodyOps, Envelope, StepsSpans, BodySpans;
    var needs, inner, from := StepsOps(reg, r.needs), BodyOps(reg, r.body), at + |StepsOps(reg, r.needs)|;
    var body, x := Envelope(reg, r.task, inner), BodySpans(reg, r.body, from + Lead(reg, r.task));
    var own := Span(r.task, r.body, from, at + |RecordOps(reg, r)|);
    StepsComplete(reg, r.needs, at);
    BodyComplete(reg, r.body, from + Lead(reg, r.task));
    Enveloped(reg, r.task, inner, from, x);
    OwnComplete(reg, body, from, own);
    AddComplete(reg, body, from, x, own);
    CompleteConcat(reg, needs, body, at, StepsSpans(reg, r.needs, at), x + [own]);
    assert RecordSpans(reg, r, at) == StepsSpans(reg, r.needs, at) + (x + [own]);
  }

  lemma {:induction false} OwnComplete(reg: Registry, body: seq<Op>, from: nat, own: Span)
    requires body == Envelope(reg, own.task, BodyOps(reg, own.body)) && own.from == from && own.to == from + |body|
    ensures Complete(reg, body, from, own)
  {
    hide Envelope, BodyOps;
    assert body[0..|body|] == body;
  }

  lemma {:induction false} AddComplete(reg: Registry, ops: seq<Op>, at: nat, spans: seq<Span>, own: Span)
    requires AllComplete(reg, ops, at, spans) && Complete(reg, ops, at, own)
    ensures AllComplete(reg, ops, at, spans + [own])
  {
    hide Complete;
  }

  lemma {:induction false} Enveloped(reg: Registry, task: string, inner: seq<Op>, at: nat, spans: seq<Span>)
    requires AllComplete(reg, inner, at + Lead(reg, task), spans)
    ensures AllComplete(reg, Envelope(reg, task, inner), at, spans)
  {
    hide AllComplete;
    if task in reg && reg[task].guard != [] {
      var begin := ControlOp(KindWhenBegin, "when." + task, reg[task].guard, reg[task].privileged);
      AllStillComplete(reg, [begin], inner, [ControlOp(KindWhenEnd, "", [], reg[task].privileged)], at, spans);
    }
  }

  lemma {:induction false} BodyComplete(reg: Registry, body: Body, at: nat)
    ensures AllComplete(reg, BodyOps(reg, body), at, BodySpans(reg, body, at))
    decreases body
  {
    match body {
      case Members(members) =>
        hide AllComplete, StepsOps, StepsSpans;
        StepsComplete(reg, members, at);
      case Plain(_) =>
        assert BodySpans(reg, body, at) == [];
    }
  }

  /** One of the spans is a body of task that ends at line or before. */
  predicate DoneBy(spans: seq<Span>, task: string, line: nat) {
    exists j :: 0 <= j < |spans| && spans[j].task == task && spans[j].to <= line
  }

  lemma {:induction false} StillDone(spans: seq<Span>, more: seq<Span>, task: string, line: nat, later: nat)
    requires DoneBy(spans, task, line) && line <= later
    ensures DoneBy(spans + more, task, later)
  {
    var j :| 0 <= j < |spans| && spans[j].task == task && spans[j].to <= line;
    assert (spans + more)[j] == spans[j];
  }

  /** A span is the body its task asks for; the body of each of its needs is
      complete before it begins, and that of each member before it ends. */
  ghost predicate InOrder(reg: Registry, earlier: seq<Span>, s: Span) {
    && s.task in reg && reg[s.task].aliasOf == "" && (exists env :: LegalBody(reg, env, s.task, s.body))
    && NamesDone(reg, NeedNames(reg, s.task), earlier, s.from)
    && (reg[s.task].aggregate ==> NamesDone(reg, MemberNames(reg, s.task), earlier, s.to))
  }

  ghost predicate NamesDone(reg: Registry, names: seq<string>, spans: seq<Span>, line: nat) {
    forall k :: 0 <= k < |names| ==>
      ResolveAlias(reg, names[k]).Real? && DoneBy(spans, ResolveAlias(reg, names[k]).name, line)
  }

  /** Each span after those before it. */
  ghost predicate AllInOrder(reg: Registry, before: seq<Span>, spans: seq<Span>) {
    forall i :: 0 <= i < |spans| ==> InOrder(reg, before + spans[..i], spans[i])
  }

  lemma {:induction false} OrderConcat(reg: Registry, before: seq<Span>, x: seq<Span>, y: seq<Span>)
    requires AllInOrder(reg, before, x) && AllInOrder(reg, before + x, y)
    ensures AllInOrder(reg, before, x + y)
  {
    hide InOrder;
    var all := x + y;
    forall i | 0 <= i < |all|
      ensures InOrder(reg, before + all[..i], all[i])
    {
      if i < |x| {
        assert all[..i] == x[..i];
      } else {
        assert before + all[..i] == before + x + y[..i - |x|];
      }
    }
  }

  lemma {:induction false} OrderAdd(reg: Registry, before: seq<Span>, x: seq<Span>, own: Span)
    requires AllInOrder(reg, before, x) && InOrder(reg, before + x, own)
    ensures AllInOrder(reg, before, x + [own])
  {
    hide InOrder;
    assert forall i :: 0 <= i < |x| ==> (x + [own])[..i] == x[..i];
    assert (x + [own])[..|x|] == x;
  }

  lemma {:induction false} StillNamesDone(reg: Registry, names: seq<string>, spans: seq<Span>, more: seq<Span>,
                                          line: nat, later: nat)
    requires NamesDone(reg, names, spans, line) && line <= later
    ensures NamesDone(reg, names, spans + more, later)
  {
    hide DoneBy;
    forall k | 0 <= k < |names|
      ensures DoneBy(spans + more, ResolveAlias(reg, names[k]).name, later)
    {
      StillDone(spans, more, ResolveAlias(reg, names[k]).name, line, later);
    }
  }

  /** Whatever the dedupe sets hold is complete at line. */
  predicate SetsDone(env: Env, spans: seq<Span>, line: nat) {
    && (env.seen.Some? ==> forall t :: t in env.seen.value ==> DoneBy(spans, t, line))
    && (env.scope.Some? ==>
          forall t :: t in env.scope.value.recorded + env.scope.value.viaNeeds ==> DoneBy(spans, t, line))
  }

  lemma {:induction false} StillSetsDone(env: Env, spans: seq<Span>, more: seq<Span>, line: nat, later: nat)
    requires SetsDone(env, spans, line) && line <= later
    ensures SetsDone(env, spans + more, later)
  {
    hide DoneBy;
    forall t | DoneBy(spans, t, line)
      ensures DoneBy(spans + more, t, later)
    {
      StillDone(spans, more, t, line, later);
    }
  }

  lemma {:induction false} NotedDone(env: Env, mode: Mode, task: string, spans: seq<Span>, line: nat)
    requires SetsDone(env, spans, line) && DoneBy(spans, task, line)
    ensures SetsDone(Noted(env, mode, task), spans, line)
  {
    hide DoneBy;
  }

  lemma {:induction false} StepInOrder(reg: Registry, env: Env, mode: Mode, name: string, step: Step, before: seq<Span>,
                                       at: nat)
    requires LegalStep(reg, env, mode, name, step) && SetsDone(env, before, at)
    ensures AllInOrder(reg, before, StepSpans(reg, step, at))
    ensures SetsDone(AfterStep(env, mode, step), before + StepSpans(reg, step, at), at + |StepOps(reg, step)|)
    ensures DoneBy(before + StepSpans(reg, step, at), ResolveAlias(reg, name).name, at + |StepOps(reg, step)|)
    decreases step
  {
    hide LegalRecord, InOrder, DoneBy, RecordSpans, RecordOps, AfterRecord;
    if step.Skip? {
      assert before + [] == before;
    } else {
      RecordInOrder(reg, env, step.record, before, at);
      hide SetsDone, Skips;
      NotedDone(AfterRecord(env, step.record), mode, step.record.task, before + StepSpans(reg, step, at),
                at + |StepOps(reg, step)|);
    }
  }

  lemma {:induction false} StepsInOrder(reg: Registry, env: Env, mode: Mode, names: seq<string>, steps: seq<Step>,
                                        before: seq<Span>, at: nat)
    requires LegalSteps(reg, env, mode, names, steps) && SetsDone(env, before, at)
    ensures AllInOrder(reg, before, StepsSpans(reg, steps, at))
    ensures SetsDone(After(env, mode, steps), before + StepsSpans(reg, steps, at), at + |StepsOps(reg, steps)|)
    ensures NamesDone(reg, names, before + StepsSpans(reg, steps, at), at + |StepsOps(reg, steps)|)
    decreases steps
  {
    hide *;
    if steps == [] {
      NothingInOrder(reg, env, mode, names, before, at);
    } else {
      LastStep(reg, env, mode, names, steps, at);
      LastStepOps(reg, steps);
      var rest, last, n := steps[..|steps| - 1], steps[|steps| - 1], |names| - 1;
      var x, mid := StepsSpans(reg, rest, at), at + |StepsOps(reg, rest)|;
      var y := StepSpans(reg, last, mid);
      StepsInOrder(reg, env, mode, names[..n], rest, before, at);
      StepInOrder(reg, After(env, mode, rest), mode, names[n], last, before + x, mid);
      OrderConcat(reg, before, x, y);
      StillNamesDone(reg, names[..n], before + x, y, mid, mid + |StepOps(reg, last)|);
      assert before + x + y == before + (x + y);
      NextNameDone(reg, env, mode, names, rest, last, before + x + y, mid + |StepOps(reg, last)|);
    }
  }

  lemma {:induction false} LastStepOps(reg: Registry, steps: seq<Step>)
    requires steps != []
    ensures StepsOps(reg, steps) == StepsOps(reg, steps[..|steps| - 1]) + StepOps(reg, steps[|steps| - 1])
  {
    hide StepOps;
  }

  lemma {:induction false} NothingInOrder(reg: Registry, env: Env, mode: Mode, names: seq<string>, before: seq<Span>,
                                          at: nat)
    requires LegalSteps(reg, env, mode, names, []) && SetsDone(env, before, at)
    ensures StepsSpans(reg, [], at) == [] && StepsOps(reg, []) == [] && AllInOrder(reg, before, [])
    ensures SetsDone(After(env, mode, []), before + [], at) && NamesDone(reg, names, before + [], at)
  {
    hide SetsDone;
    assert before + [] == before;
  }

  lemma {:induction false} NextNameDone(reg: Registry, env: Env, mode: Mode, names: seq<string>, rest: seq<Step>,
                                        last: Step, spans: seq<Span>, line: nat)
    requires names != [] && LegalStep(reg, After(env, mode, rest), mode, names[|names| - 1], last)
    requires NamesDone(reg, names[..|names| - 1], spans, line)
    requires DoneBy(spans, ResolveAlias(reg, names[|names| - 1]).name, line)
    ensures NamesDone(reg, names, spans, line)
  {
    hide DoneBy, After, LegalRecord, Skips;
    var n := |names| - 1;
    assert forall k :: 0 <= k < n ==> names[..n][k] == names[k];
  }

  lemma {:induction false} RecordInOrder(reg: Registry, env: Env, r: Record, before: seq<Span>, at: nat)
    requires LegalRecord(reg, env, r) && SetsDone(env, before, at)
    ensures AllInOrder(reg, before, RecordSpans(reg, r, at))
    ensures SetsDone(AfterRecord(env, r), before + RecordSpans(reg, r, at), at + |RecordOps(reg, r)|)
    ensures DoneBy(before + RecordSpans(reg, r, at), r.task, at + |RecordOps(reg, r)|)
    decreases r
  {
    hide *;
    RecordParts(reg, env, r, at);
    var env2, from := After(env, ByNeed, r.needs), at + |StepsOps(reg, r.needs)|;
    var to, start := at + |RecordOps(reg, r)|, from + Lead(reg, r.task);
    var x, y := StepsSpans(reg, r.needs, at), BodySpans(reg, r.body, start);
    var own := Span(r.task, r.body, from, to);
    StepsInOrder(reg, env, ByNeed, NeedNames(reg, r.task), r.needs, before, at);
    StillSetsDone(env2, before + x, [], from, start);
    assert before + x + [] == before + x;
    BodyInOrder(reg, env2, r.task, r.body, before + x, start);
    StillNamesDone(reg, NeedNames(reg, r.task), before + x, y, from, from);
    if reg[r.task].aggregate {
      StillNamesDone(reg, MemberNames(reg, r.task), before + x + y, [], start + |BodyOps(reg, r.body)|, to);
      assert before + x + y + [] == before + x + y;
    }
    OwnInOrder(reg, env2, before + x + y, own);
    OrderConcat(reg, before, x, y);
    assert before + x + y == before + (x + y) && before + x + y + [own] == before + (x + y + [own]);
    OrderAdd(reg, before, x + y, own);
    StillSetsDone(AfterRecord(env, r), before + x + y, [own], start + |BodyOps(reg, r.body)|, to);
    OwnDone(before + x + y, own);
  }

  /** What there is to know of one record. */
  lemma {:induction false} RecordParts(reg: Registry, env: Env, r: Record, at: nat)
    requires LegalRecord(reg, env, r)
    ensures r.task in reg && reg[r.task].aliasOf == "" && NeedsNamed(reg, r.task)
    ensures LegalSteps(reg, env, ByNeed, NeedNames(reg, r.task), r.needs)
    ensures LegalBody(reg, After(env, ByNeed, r.needs), r.task, r.body)
    ensures AfterRecord(env, r) == AfterBody(After(env, ByNeed, r.needs), r.body)
    ensures var from := at + |StepsOps(reg, r.needs)|;
            && from + Lead(reg, r.task) + |BodyOps(reg, r.body)| <= at + |RecordOps(reg, r)|
            && RecordSpans(reg, r, at) ==
                 StepsSpans(reg, r.needs, at) + BodySpans(reg, r.body, from + Lead(reg, r.task)) +
                 [Span(r.task, r.body, from, at + |RecordOps(reg, r)|)]
  {
    hide LegalSteps, LegalBody, After, AfterBody, StepsOps, BodyOps, StepsSpans, BodySpans, NeedNames;
  }

  lemma {:induction false} OwnInOrder(reg: Registry, env: Env, earlier: seq<Span>, own: Span)
    requires own.task in reg && reg[own.task].aliasOf == "" && LegalBody(reg, env, own.task, own.body)
    requires NamesDone(reg, NeedNames(reg, own.task), earlier, own.from)
    requires reg[own.task].aggregate ==> NamesDone(reg, MemberNames(reg, own.task), earlier, own.to)
    ensures InOrder(reg, earlier, own)
  {
    hide LegalBody, NamesDone, NeedNames, MemberNames;
  }

  lemma {:induction false} OwnDone(earlier: seq<Span>, own: Span)
    ensures DoneBy(earlier + [own], own.task, own.to)
  {
    assert (earlier + [own])[|earlier|] == own;
  }

  lemma {:induction false} BodyInOrder(reg: Registry, env: Env, task: string, body: Body, before: seq<Span>, at: nat)
    requires task in reg && LegalBody(reg, env, task, body) && SetsDone(env, before, at)
    ensures AllInOrder(reg, before, BodySpans(reg, body, at))
    ensures SetsDone(AfterBody(env, body), before + BodySpans(reg, body, at), at + |BodyOps(reg, body)|)
    ensures reg[task].aggregate ==>
              NamesDone(reg, MemberNames(reg, task), before + BodySpans(reg, body, at), at + |BodyOps(reg, body)|)
    decreases body
  {
    match body {
      case Members(members) =>
        hide LegalSteps, DoneBy, StepsSpans, StepsOps, After, NamesDone, MemberNames, MembersKnown, AllInOrder;
        StepsInOrder(reg, TreeEnv(env), ByMember, MemberNames(reg, task), members, before, at);
      case Plain(_) =>
        hide LegalParts, MemberNames, DoneBy, SetsDone, PartsOps;
        StillSetsDone(env, before, [], at, at + |BodyOps(reg, body)|);
    }
  }

  /** Following calls from one of the names leads to the task. */
  ghost predicate CalledFrom(reg: Registry, names: seq<string>, task: string) {
    exists k :: 0 <= k < |names| && Reach(CallGraph(reg), names[k], task)
  }

  ghost predicate AllCalledFrom(reg: Registry, names: seq<string>, spans: seq<Span>) {
    forall i :: 0 <= i < |spans| ==> CalledFrom(reg, names, spans[i].task)
  }

  lemma {:induction false} CalledConcat(reg: Registry, x: seq<string>, y: seq<string>, a: seq<Span>, b: seq<Span>)
    requires AllCalledFrom(reg, x, a) && AllCalledFrom(reg, y, b)
    ensures AllCalledFrom(reg, x + y, a + b)
  {
    hide Reach, CallGraph;
    assert forall k :: 0 <= k < |y| ==> (x + y)[|x| + k] == y[k];
    assert forall k :: 0 <= k < |x| ==> (x + y)[k] == x[k];
    forall i | 0 <= i < |a + b|
      ensures CalledFrom(reg, x + y, (a + b)[i].task)
    {
      if i < |a| {
        var k :| 0 <= k < |x| && Reach(CallGraph(reg), x[k], a[i].task);
        assert Reach(CallGraph(reg), (x + y)[k], (a + b)[i].task);
      } else {
        var k :| 0 <= k < |y| && Reach(CallGraph(reg), y[k], b[i - |a|].task);
        assert Reach(CallGraph(reg), (x + y)[|x| + k], (a + b)[i].task);
      }
    }
  }

  lemma {:induction false} StepCalled(reg: Registry, env: Env, mode: Mode, name: string, step: Step, at: nat)
    requires LegalStep(reg, env, mode, name, step)
    ensures AllCalledFrom(reg, [name], StepSpans(reg, step, at))
    decreases step
  {
    if step.Take? {
      hide LegalRecord, RecordSpans, Reach, CallGraph, Calls;
      var r, e := step.record, CallGraph(reg);
      RecordCalled(reg, env, r, at);
      TargetCalled(reg, name);
      forall i | 0 <= i < |RecordSpans(reg, r, at)|
        ensures CalledFrom(reg, [name], RecordSpans(reg, r, at)[i].task)
      {
        var k :| 0 <= k < |[r.task]| && Reach(e, [r.task][k], RecordSpans(reg, r, at)[i].task);
        ReachTrans(e, name, r.task, RecordSpans(reg, r, at)[i].task);
        assert Reach(e, [name][0], RecordSpans(reg, r, at)[i].task);
      }
    }
  }

  lemma {:induction false} TargetCalled(reg: Registry, name: string)
    requires ResolveAlias(reg, name).Real?
    ensures Reach(CallGraph(reg), name, ResolveAlias(reg, name).name)
  {
    var e, target := CallGraph(reg), ResolveAlias(reg, name).name;
    ReachRefl(e, name);
    if name in reg && reg[name].aliasOf != "" {
      assert target in Calls(reg, name);
      assert (name, target) in e;
      ReachRefl(e, target);
      EdgeThenReach(e, name, target, target);
    }
  }

  lemma {:induction false} NoSpans(reg: Registry, env: Env, mode: Mode, names: seq<string>, at: nat)
    ensures StepsSpans(reg, [], at) == [] && After(env, mode, []) == env
    ensures AllCalledFrom(reg, names, []) && TreesOnce(reg, []) && NoneOperational(reg, [])
    ensures env.seen.Some? ==> Fresh(env, env, [])
  {
    if env.seen.Some? {
      FreshNone(env);
    }
  }

  lemma {:induction false} StepsCalled(reg: Registry, env: Env, mode: Mode, names: seq<string>, steps: seq<Step>,
                                       at: nat)
    requires LegalSteps(reg, env, mode, names, steps)
    ensures AllCalledFrom(reg, names, StepsSpans(reg, steps, at))
    decreases steps
  {
    hide *;
    NoSpans(reg, env, mode, names, at);
    if steps != [] {
      LastStep(reg, env, mode, names, steps, at);
      var rest, last, n := steps[..|steps| - 1], steps[|steps| - 1], |names| - 1;
      StepsCalled(reg, env, mode, names[..n], rest, at);
      StepCalled(reg, After(env, mode, rest), mode, names[n], last, at + |StepsOps(reg, rest)|);
      CalledConcat(reg, names[..n], [names[n]], StepsSpans(reg, rest, at),
                   StepSpans(reg, last, at + |StepsOps(reg, rest)|));
      assert names == names[..n] + [names[n]];
    }
  }

  /** The spans a record adds before its own. */
  function Inside(reg: Registry, r: Record, at: nat): seq<Span> {
    StepsSpans(reg, r.needs, at) + BodySpans(reg, r.body, at + |StepsOps(reg, r.needs)| + Lead(reg, r.task))
  }

  lemma {:induction false} InsideCalled(reg: Registry, env: Env, r: Record, at: nat)
    requires LegalRecord(reg, env, r)
    ensures r.task in reg && AllCalledFrom(reg, Calls(reg, r.task), Inside(reg, r, at))
    decreases r, 0
  {
    hide *;
    RecordParts(reg, env, r, at);
    var start := at + |StepsOps(reg, r.needs)| + Lead(reg, r.task);
    StepsCalled(reg, env, ByNeed, NeedNames(reg, r.task), r.needs, at);
    BodyCalled(reg, After(env, ByNeed, r.needs), r.task, r.body, start);
    CalledConcat(reg, NeedNames(reg, r.task), BodyNames(reg, r.task), StepsSpans(reg, r.needs, at),
                 BodySpans(reg, r.body, start));
    CallsAre(reg, r.task);
    InsideIs(reg, r, at);
  }

  lemma {:induction false} CallsAre(reg: Registry, x: string)
    requires x in reg && reg[x].aliasOf == ""
    ensures Calls(reg, x) == NeedNames(reg, x) + BodyNames(reg, x)
  {
  }

  lemma {:induction false} InsideIs(reg: Registry, r: Record, at: nat)
    ensures var from := at + |StepsOps(reg, r.needs)|;
            && Inside(reg, r, at) == StepsSpans(reg, r.needs, at) + BodySpans(reg, r.body, from + Lead(reg, r.task))
            && RecordSpans(reg, r, at) == Inside(reg, r, at) + [Span(r.task, r.body, from, at + |RecordOps(reg, r)|)]
  {
    hide StepsSpans, BodySpans, StepsOps, RecordOps, Lead;
  }

  lemma {:induction false} RecordCalled(reg: Registry, env: Env, r: Record, at: nat)
    requires LegalRecord(reg, env, r)
    ensures AllCalledFrom(reg, [r.task], RecordSpans(reg, r, at))
    decreases r, 1
  {
    hide LegalRecord, Inside, RecordSpans, Reach, Calls;
    var e, inside := CallGraph(reg), Inside(reg, r, at);
    InsideCalled(reg, env, r, at);
    InsideIs(reg, r, at);
    ReachRefl(e, r.task);
    assert Reach(e, [r.task][0], r.task);
    forall i | 0 <= i < |inside|
      ensures CalledFrom(reg, [r.task], inside[i].task)
    {
      var k :| 0 <= k < |Calls(reg, r.task)| && Reach(e, Calls(reg, r.task)[k], inside[i].task);
      assert Calls(reg, r.task)[k] in Calls(reg, r.task);
      assert (r.task, Calls(reg, r.task)[k]) in e;
      EdgeThenReach(e, r.task, Calls(reg, r.task)[k], inside[i].task);
      assert Reach(e, [r.task][0], inside[i].task);
    }
  }

  lemma {:induction false} BodyCalled(reg: Registry, env: Env, task: string, body: Body, at: nat)
    requires task in reg && LegalBody(reg, env, task, body)
    ensures AllCalledFrom(reg, BodyNames(reg, task), BodySpans(reg, body, at))
    decreases body
  {
    match body {
      case Members(members) =>
        hide LegalSteps, CalledFrom, StepsSpans, MemberNames, MembersKnown;
        StepsCalled(reg, TreeEnv(env), ByMember, MemberNames(reg, task), members, at);
      case Plain(_) =>
    }
  }

  /** Nothing a recordable task records before its own body is that task. */
  lemma {:induction false} NotInside(reg: Registry, env: Env, r: Record, at: nat)
    requires LegalRecord(reg, env, r) && Recordable(reg, r.task)
    ensures r.task !in TaskSet(Inside(reg, r, at))
  {
    hide LegalRecord, Inside, Reach, Calls, Recordable;
    var e, inside := CallGraph(reg), Inside(reg, r, at);
    InsideCalled(reg, env, r, at);
    forall i | 0 <= i < |inside|
      ensures inside[i].task != r.task
    {
      var k :| 0 <= k < |Calls(reg, r.task)| && Reach(e, Calls(reg, r.task)[k], inside[i].task);
      assert Calls(reg, r.task)[k] in Calls(reg, r.task);
      assert (r.task, Calls(reg, r.task)[k]) in e;
      NotItself(reg, r.task, Calls(reg, r.task)[k]);
    }
  }

  function TaskSet(spans: seq<Span>): set<string> {
    set i | 0 <= i < |spans| :: spans[i].task
  }

  /** No two of the spans are of one task. */
  predicate EachOnce(spans: seq<Span>) {
    forall i, j :: 0 <= i < j < |spans| ==> spans[i].task != spans[j].task
  }

  lemma {:induction false} OnceConcat(a: seq<Span>, b: seq<Span>)
    ensures TaskSet(a + b) == TaskSet(a) + TaskSet(b)
    ensures EachOnce(a) && EachOnce(b) && TaskSet(a) !! TaskSet(b) ==> EachOnce(a + b)
  {
    var all := a + b;
    forall t | t in TaskSet(a) + TaskSet(b)
      ensures t in TaskSet(all)
    {
      if t in TaskSet(a) {
        var i :| 0 <= i < |a| && a[i].task == t;
        assert all[i].task == t;
      } else {
        var i :| 0 <= i < |b| && b[i].task == t;
        assert all[|a| + i].task == t;
      }
    }
    if EachOnce(a) && EachOnce(b) && TaskSet(a) !! TaskSet(b) {
      forall i, j | 0 <= i < j < |all|
        ensures all[i].task != all[j].task
      {
        if i < |a| <= j {
          assert a[i].task in TaskSet(a) && b[j - |a|].task in TaskSet(b);
        }
      }
    }
  }

  lemma {:induction false} OneTask(s: Span)
    ensures TaskSet([s]) == {s.task} && EachOnce([s])
  {
    assert [s][0].task in TaskSet([s]);
  }

  /** Inside a tree the spans are of different tasks the tree did not hold, and
      the tree then holds exactly those besides. */
  ghost predicate Fresh(env: Env, after: Env, spans: seq<Span>) {
    && env.seen.Some? && after.seen == Some(env.seen.value + TaskSet(spans))
    && EachOnce(spans) && TaskSet(spans) !! env.seen.value
  }

  lemma {:induction false} FreshNone(env: Env)
    requires env.seen.Some?
    ensures Fresh(env, env, [])
  {
    assert TaskSet([]) == {} && env.seen.value + {} == env.seen.value;
  }

  lemma {:induction false} FreshConcat(env: Env, mid: Env, after: Env, a: seq<Span>, b: seq<Span>)
    requires Fresh(env, mid, a) && Fresh(mid, after, b)
    ensures Fresh(env, after, a + b)
  {
    OnceConcat(a, b);
    hide TaskSet, EachOnce;
    assert env.seen.value + TaskSet(a + b) == env.seen.value + TaskSet(a) + TaskSet(b);
  }

  lemma {:induction false} FreshOwn(env: Env, mid: Env, mode: Mode, a: seq<Span>, own: Span)
    requires Fresh(env, mid, a) && mode != ByList && own.task !in env.seen.value && own.task !in TaskSet(a)
    ensures Fresh(env, Noted(mid, mode, own.task), a + [own])
  {
    OneTask(own);
    OnceConcat(a, [own]);
    hide TaskSet, EachOnce;
    assert env.seen.value + TaskSet(a + [own]) == env.seen.value + TaskSet(a) + {own.task};
  }

  lemma {:induction false} StepOnce(reg: Registry, env: Env, mode: Mode, name: string, step: Step, at: nat)
    requires LegalStep(reg, env, mode, name, step) && SetsRecordable(reg, env) && env.seen.Some? && mode != ByList
    ensures Fresh(env, AfterStep(env, mode, step), StepSpans(reg, step, at))
    decreases step
  {
    if step.Skip? {
      FreshNone(env);
    } else {
      hide LegalRecord, Fresh, SetsRecordable, AfterRecord, RecordSpans, Noted;
      TakenOnce(reg, env, mode, step.record, at);
    }
  }

  lemma {:induction false} TakenOnce(reg: Registry, env: Env, mode: Mode, r: Record, at: nat)
    requires LegalRecord(reg, env, r) && SetsRecordable(reg, env) && env.seen.Some? && mode != ByList
    requires r.task !in env.seen.value
    ensures Fresh(env, Noted(AfterRecord(env, r), mode, r.task), RecordSpans(reg, r, at))
    decreases r, 1
  {
    hide *;
    RecordRecordable(reg, env, r);
    InsideOnce(reg, env, r, at);
    NotInside(reg, env, r, at);
    InsideIs(reg, r, at);
    var own := Span(r.task, r.body, at + |StepsOps(reg, r.needs)|, at + |RecordOps(reg, r)|);
    FreshOwn(env, AfterRecord(env, r), mode, Inside(reg, r, at), own);
  }

  lemma {:induction false} StepsOnce(reg: Registry, env: Env, mode: Mode, names: seq<string>, steps: seq<Step>, at: nat)
    requires LegalSteps(reg, env, mode, names, steps) && SetsRecordable(reg, env) && env.seen.Some? && mode != ByList
    ensures Fresh(env, After(env, mode, steps), StepsSpans(reg, steps, at))
    decreases steps
  {
    hide *;
    NoSpans(reg, env, mode, names, at);
    if steps != [] {
      LastStep(reg, env, mode, names, steps, at);
      var rest, last, n := steps[..|steps| - 1], steps[|steps| - 1], |names| - 1;
      var mid := After(env, mode, rest);
      StepsOnce(reg, env, mode, names[..n], rest, at);
      StepsRecordable(reg, env, mode, names[..n], rest);
      FreshInTree(env, mid, StepsSpans(reg, rest, at));
      StepOnce(reg, mid, mode, names[n], last, at + |StepsOps(reg, rest)|);
      FreshConcat(env, mid, AfterStep(mid, mode, last), StepsSpans(reg, rest, at),
                  StepSpans(reg, last, at + |StepsOps(reg, rest)|));
    }
  }

  lemma {:induction false} FreshInTree(env: Env, after: Env, spans: seq<Span>)
    requires Fresh(env, after, spans)
    ensures after.seen.Some?
  {
  }

  lemma {:induction false} InsideOnce(reg: Registry, env: Env, r: Record, at: nat)
    requires LegalRecord(reg, env, r) && SetsRecordable(reg, env) && env.seen.Some?
    ensures Fresh(env, AfterRecord(env, r), Inside(reg, r, at))
    decreases r, 0
  {
    hide *;
    RecordParts(reg, env, r, at);
    InsideIs(reg, r, at);
    var mid, start := After(env, ByNeed, r.needs), at + |StepsOps(reg, r.needs)| + Lead(reg, r.task);
    StepsOnce(reg, env, ByNeed, NeedNames(reg, r.task), r.needs, at);
    StepsRecordable(reg, env, ByNeed, NeedNames(reg, r.task), r.needs);
    FreshInTree(env, mid, StepsSpans(reg, r.needs, at));
    BodyOnce(reg, mid, r.task, r.body, start);
    FreshConcat(env, mid, AfterBody(mid, r.body), StepsSpans(reg, r.needs, at), BodySpans(reg, r.body, start));
  }

  lemma {:induction false} BodyOnce(reg: Registry, env: Env, task: string, body: Body, at: nat)
    requires task in reg && LegalBody(reg, env, task, body) && SetsRecordable(reg, env) && env.seen.Some?
    ensures Fresh(env, AfterBody(env, body), BodySpans(reg, body, at))
    decreases body
  {
    match body {
      case Members(members) =>
        hide LegalSteps, Fresh, SetsRecordable, StepsSpans, After, MemberNames, MembersKnown;
        StepsOnce(reg, env, ByMember, MemberNames(reg, task), members, at);
      case Plain(_) =>
        FreshNone(env);
    }
  }

  /** An aggregate's tree is the run of spans right before its own, and no task
      is in it twice. */
  ghost predicate TreeOnce(reg: Registry, earlier: seq<Span>, s: Span) {
    s.body.Members? ==>
      var tree := StepsSpans(reg, s.body.members, s.from + Lead(reg, s.task));
      |tree| <= |earlier| && earlier[|earlier| - |tree|..] == tree && EachOnce(tree)
  }

  ghost predicate TreesOnce(reg: Registry, spans: seq<Span>) {
    forall i :: 0 <= i < |spans| ==> TreeOnce(reg, spans[..i], spans[i])
  }

  lemma {:induction false} TreesConcat(reg: Registry, a: seq<Span>, b: seq<Span>)
    requires TreesOnce(reg, a) && TreesOnce(reg, b)
    ensures TreesOnce(reg, a + b)
  {
    hide TreeOnce;
    var all := a + b;
    forall i | 0 <= i < |all|
      ensures TreeOnce(reg, all[..i], all[i])
    {
      if i < |a| {
        assert all[..i] == a[..i];
      } else {
        assert all[..i] == a + b[..i - |a|];
        TreeBehind(reg, a, b[..i - |a|], b[i - |a|]);
      }
    }
  }

  lemma {:induction false} TreeBehind(reg: Registry, front: seq<Span>, earlier: seq<Span>, s: Span)
    requires TreeOnce(reg, earlier, s)
    ensures TreeOnce(reg, front + earlier, s)
  {
    hide StepsSpans, EachOnce;
    if s.body.Members? {
      var n := |StepsSpans(reg, s.body.members, s.from + Lead(reg, s.task))|;
      var all := front + earlier;
      assert all[|all| - n..] == earlier[|earlier| - n..];
    }
  }

  lemma {:induction false} TreesAdd(reg: Registry, spans: seq<Span>, own: Span)
    requires TreesOnce(reg, spans) && TreeOnce(reg, spans, own)
    ensures TreesOnce(reg, spans + [own])
  {
    hide TreeOnce;
    assert forall i :: 0 <= i < |spans| ==> (spans + [own])[..i] == spans[..i];
    assert (spans + [own])[..|spans|] == spans;
  }

  lemma {:induction false} StepTrees(reg: Registry, env: Env, mode: Mode, name: string, step: Step, at: nat)
    requires LegalStep(reg, env, mode, name, step) && SetsRecordable(reg, env)
    ensures TreesOnce(reg, StepSpans(reg, step, at))
    decreases step
  {
    if step.Take? {
      hide LegalRecord, TreesOnce, RecordSpans, SetsRecordable, Skips;
      RecordTrees(reg, env, step.record, at);
    }
  }

  lemma {:induction false} StepsTrees(reg: Registry, env: Env, mode: Mode, names: seq<string>, steps: seq<Step>,
                                      at: nat)
    requires LegalSteps(reg, env, mode, names, steps) && SetsRecordable(reg, env)
    ensures TreesOnce(reg, StepsSpans(reg, steps, at))
    decreases steps
  {
    hide *;
    NoSpans(reg, env, mode, names, at);
    if steps != [] {
      LastStep(reg, env, mode, names, steps, at);
      var rest, last, n := steps[..|steps| - 1], steps[|steps| - 1], |names| - 1;
      StepsTrees(reg, env, mode, names[..n], rest, at);
      StepsRecordable(reg, env, mode, names[..n], rest);
      StepTrees(reg, After(env, mode, rest), mode, names[n], last, at + |StepsOps(reg, rest)|);
      TreesConcat(reg, StepsSpans(reg, rest, at), StepSpans(reg, last, at + |StepsOps(reg, rest)|));
    }
  }

  lemma {:induction false} RecordTrees(reg: Registry, env: Env, r: Record, at: nat)
    requires LegalRecord(reg, env, r) && SetsRecordable(reg, env)
    ensures TreesOnce(reg, RecordSpans(reg, r, at))
    decreases r
  {
    hide *;
    RecordParts(reg, env, r, at);
    var mid, from := After(env, ByNeed, r.needs), at + |StepsOps(reg, r.needs)|;
    var start := from + Lead(reg, r.task);
    var x, y := StepsSpans(reg, r.needs, at), BodySpans(reg, r.body, start);
    var own := Span(r.task, r.body, from, at + |RecordOps(reg, r)|);
    StepsTrees(reg, env, ByNeed, NeedNames(reg, r.task), r.needs, at);
    StepsRecordable(reg, env, ByNeed, NeedNames(reg, r.task), r.needs);
    BodyTrees(reg, mid, r.task, r.body, start);
    OwnTree(reg, mid, own, start);
    TreesConcat(reg, x, y);
    TreeBehind(reg, x, y, own);
    TreesAdd(reg, x + y, own);
  }

  lemma {:induction false} BodyTrees(reg: Registry, env: Env, task: string, body: Body, at: nat)
    requires task in reg && LegalBody(reg, env, task, body) && SetsRecordable(reg, env)
    ensures TreesOnce(reg, BodySpans(reg, body, at))
    decreases body
  {
    match body {
      case Members(members) =>
        hide LegalSteps, TreesOnce, StepsSpans, MemberNames, MembersKnown, Recordable;
        StepsTrees(reg, TreeEnv(env), ByMember, MemberNames(reg, task), members, at);
      case Plain(_) =>
    }
  }

  lemma {:induction false} OwnTree(reg: Registry, env: Env, own: Span, start: nat)
    requires own.task in reg && LegalBody(reg, env, own.task, own.body) && SetsRecordable(reg, env)
    requires start == own.from + Lead(reg, own.task)
    ensures TreeOnce(reg, BodySpans(reg, own.body, start), own)
  {
    hide *;
    if own.body.Members? {
      TreeLegal(reg, env, own.task, own.body);
      StepsOnce(reg, TreeEnv(env), ByMember, MemberNames(reg, own.task), own.body.members, start);
      TreeIs(reg, TreeEnv(env), After(TreeEnv(env), ByMember, own.body.members), own, start);
    } else {
      NoTree(reg, BodySpans(reg, own.body, start), own);
    }
  }

  lemma {:induction false} TreeLegal(reg: Registry, env: Env, task: string, body: Body)
    requires task in reg && LegalBody(reg, env, task, body) && body.Members? && SetsRecordable(reg, env)
    ensures LegalSteps(reg, TreeEnv(env), ByMember, MemberNames(reg, task), body.members)
    ensures SetsRecordable(reg, TreeEnv(env)) && TreeEnv(env).seen.Some?
  {
    hide LegalSteps, MemberNames, MembersKnown, Recordable;
  }

  lemma {:induction false} TreeIs(reg: Registry, env: Env, after: Env, own: Span, start: nat)
    requires own.body.Members? && start == own.from + Lead(reg, own.task)
    requires Fresh(env, after, StepsSpans(reg, own.body.members, start))
    ensures TreeOnce(reg, BodySpans(reg, own.body, start), own)
  {
    hide StepsSpans, TaskSet, EachOnce, Lead;
  }

  lemma {:induction false} NoTree(reg: Registry, earlier: seq<Span>, own: Span)
    requires !own.body.Members?
    ensures TreeOnce(reg, earlier, own)
  {
  }

  /** Where a plain body's k-th statement begins. */
  function PartAt(reg: Registry, parts: seq<Part>, k: nat): nat
    requires k <= |parts|
  {
    |PartsOps(reg, parts[..k])|
  }

  lemma {:induction false} PartOpsAt(reg: Registry, parts: seq<Part>, k: nat)
    requires k < |parts|
    ensures PartAt(reg, parts, k) <= PartAt(reg, parts, k + 1) <= |PartsOps(reg, parts)|
    ensures PartsOps(reg, parts)[PartAt(reg, parts, k)..PartAt(reg, parts, k + 1)] == PartOps(reg, parts[k])
    decreases |parts|
  {
    hide *;
    var n := |parts| - 1;
    LastPart(reg, parts);
    PartStarts(reg, parts, k);
    PartStarts(reg, parts, k + 1);
    assert parts[..|parts|] == parts;
    if k < n {
      PartStarts(reg, parts[..n], k);
      PartStarts(reg, parts[..n], k + 1);
      assert parts[..n][..k] == parts[..k] && parts[..n][..k + 1] == parts[..k + 1];
      PartOpsAt(reg, parts[..n], k);
    }
  }

  lemma {:induction false} LastPart(reg: Registry, parts: seq<Part>)
    requires parts != []
    ensures PartsOps(reg, parts) == PartsOps(reg, parts[..|parts| - 1]) + PartOps(reg, parts[|parts| - 1])
  {
  }

  lemma {:induction false} PartStarts(reg: Registry, parts: seq<Part>, k: nat)
    requires k <= |parts|
    ensures PartAt(reg, parts, k) == |PartsOps(reg, parts[..k])|
  {
  }

  lemma {:induction false} LegalPartAt(reg: Registry, actions: seq<Action>, parts: seq<Part>, k: nat)
    requires LegalParts(reg, actions, parts) && k < |actions|
    ensures |parts| == |actions| && LegalPart(reg, actions[k], parts[k])
    decreases |parts|
  {
    hide LegalPart;
    var n := |parts| - 1;
    if k < n {
      LegalPartAt(reg, actions[..n], parts[..n], k);
    }
  }

  /** A plain body is its statements one after the other: the ops it emits, and
      each nested Run list as a recording of its own. */
  lemma {:induction false} PlainBody(reg: Registry, actions: seq<Action>, parts: seq<Part>, k: nat)
    requires LegalParts(reg, actions, parts) && k < |actions|
    ensures |parts| == |actions| && PartAt(reg, parts, 0) == 0 && PartAt(reg, parts, |parts|) == |PartsOps(reg, parts)|
    ensures var from, to := PartAt(reg, parts, k), PartAt(reg, parts, k + 1);
            && from <= to <= |PartsOps(reg, parts)|
            && match actions[k]
               case Emit(ops) => PartsOps(reg, parts)[from..to] == ops
               case RunList(names) =>
                 && parts[k].Ran? && LegalSteps(reg, ListEnv(), ByList, names, parts[k].steps)
                 && PartsOps(reg, parts)[from..to] == StepsOps(reg, parts[k].steps)
  {
    hide LegalSteps, StepsOps, LegalParts;
    LegalPartAt(reg, actions, parts, k);
    PartOpsAt(reg, parts, k);
    assert parts[..|parts|] == parts;
  }

  /** None of the tasks is operational. */
  predicate NoneOperational(reg: Registry, spans: seq<Span>) {
    forall i :: 0 <= i < |spans| ==> spans[i].task in reg && !reg[spans[i].task].operational
  }

  /** None of the names is or leads to operational work. */
  ghost predicate AllHarmless(reg: Registry, names: seq<string>) {
    forall k :: 0 <= k < |names| ==> !LeadsToOperational(reg, names[k])
  }

  lemma {:induction false} InsideHarmless(reg: Registry, x: string, y: string)
    requires x in reg && y in Contents(reg[x], reg.Keys) && !LeadsToOperational(reg, x)
    ensures !LeadsToOperational(reg, y)
  {
    assert (x, y) in ContentGraph(reg);
    if LeadsToOperational(reg, y) {
      OperationalInside(reg, x, y);
    }
  }

  lemma {:induction false} TargetHarmless(reg: Registry, name: string)
    requires ResolveAlias(reg, name).Real? && !LeadsToOperational(reg, name)
    ensures !LeadsToOperational(reg, ResolveAlias(reg, name).name)
  {
    if name in reg && reg[name].aliasOf != "" {
      InsideHarmless(reg, name, reg[name].aliasOf);
    }
  }

  /** What a harmless task needs is harmless, and so is what it lists; what a
      pattern matches is filtered by the same rule. */
  lemma {:induction false} NeedsHarmless(reg: Registry, task: string)
    requires task in reg && reg[task].aliasOf == "" && !LeadsToOperational(reg, task)
    ensures AllHarmless(reg, NeedNames(reg, task))
  {
    hide LeadsToOperational;
    var names := NeedNames(reg, task);
    forall k | 0 <= k < |names|
      ensures !LeadsToOperational(reg, names[k])
    {
      assert names[k] in names;
      InsideHarmless(reg, task, names[k]);
    }
  }

  lemma {:induction false} MembersHarmless(reg: Registry, task: string)
    requires task in reg && reg[task].aliasOf == "" && (reg[task].pattern || !LeadsToOperational(reg, task))
    ensures AllHarmless(reg, MemberNames(reg, task))
  {
    hide LeadsToOperational;
    var names := MemberNames(reg, task);
    forall k | 0 <= k < |names|
      ensures !LeadsToOperational(reg, names[k])
    {
      assert names[k] in names;
      if !reg[task].pattern {
        InsideHarmless(reg, task, names[k]);
      }
    }
  }

  lemma {:induction false} StepHarmless(reg: Registry, env: Env, mode: Mode, name: string, step: Step, at: nat)
    requires LegalStep(reg, env, mode, name, step) && !LeadsToOperational(reg, name)
    ensures NoneOperational(reg, StepSpans(reg, step, at))
    decreases step
  {
    if step.Take? {
      hide LegalRecord, LeadsToOperational, RecordSpans, NoneOperational, Skips;
      TargetHarmless(reg, name);
      RecordHarmless(reg, env, step.record, at);
    }
  }

  lemma {:induction false} StepsHarmless(reg: Registry, env: Env, mode: Mode, names: seq<string>, steps: seq<Step>,
                                         at: nat)
    requires LegalSteps(reg, env, mode, names, steps) && AllHarmless(reg, names)
    ensures NoneOperational(reg, StepsSpans(reg, steps, at))
    decreases steps
  {
    hide *;
    NoSpans(reg, env, mode, names, at);
    if steps != [] {
      LastStep(reg, env, mode, names, steps, at);
      var n, mid := |steps| - 1, at + |StepsOps(reg, steps[..|steps| - 1])|;
      PrefixHarmless(reg, names);
      StepsHarmless(reg, env, mode, names[..n], steps[..n], at);
      StepHarmless(reg, After(env, mode, steps[..n]), mode, names[n], steps[n], mid);
      NonePair(reg, StepsSpans(reg, steps[..n], at), StepSpans(reg, steps[n], mid));
    }
  }

  lemma {:induction false} PrefixHarmless(reg: Registry, names: seq<string>)
    requires AllHarmless(reg, names) && names != []
    ensures AllHarmless(reg, names[..|names| - 1]) && !LeadsToOperational(reg, names[|names| - 1])
  {
    hide LeadsToOperational;
  }

  lemma {:induction false} NonePair(reg: Registry, a: seq<Span>, b: seq<Span>)
    requires NoneOperational(reg, a) && NoneOperational(reg, b)
    ensures NoneOperational(reg, a + b)
  {
  }

  lemma {:induction false} NotOperational(reg: Registry, task: string)
    requires task in reg && !LeadsToOperational(reg, task)
    ensures !reg[task].operational
  {
    if reg[task].operational {
      OperationalHere(reg, task);
    }
  }

  lemma {:induction false} NoneConcat(reg: Registry, a: seq<Span>, b: seq<Span>, own: Span)
    requires NoneOperational(reg, a) && NoneOperational(reg, b) && own.task in reg && !reg[own.task].operational
    ensures NoneOperational(reg, a + b + [own])
  {
  }

  lemma {:induction false} RecordHarmless(reg: Registry, env: Env, r: Record, at: nat)
    requires LegalRecord(reg, env, r) && !LeadsToOperational(reg, r.task)
    ensures NoneOperational(reg, RecordSpans(reg, r, at))
    decreases r
  {
    hide *;
    RecordParts(reg, env, r, at);
    var from := at + |StepsOps(reg, r.needs)|;
    var start := from + Lead(reg, r.task);
    NotOperational(reg, r.task);
    NeedsHarmless(reg, r.task);
    StepsHarmless(reg, env, ByNeed, NeedNames(reg, r.task), r.needs, at);
    BodyHarmless(reg, After(env, ByNeed, r.needs), r.task, r.body, start);
    NoneConcat(reg, StepsSpans(reg, r.needs, at), BodySpans(reg, r.body, start),
               Span(r.task, r.body, from, at + |RecordOps(reg, r)|));
  }

  /** A pattern aggregate pulls in nothing operational, needs of its members
      and members of those included; only a body's own Run list can. */
  lemma {:induction false} BodyHarmless(reg: Registry, env: Env, task: string, body: Body, at: nat)
    requires task in reg && reg[task].aliasOf == "" && LegalBody(reg, env, task, body)
    requires reg[task].pattern || !LeadsToOperational(reg, task)
    ensures NoneOperational(reg, BodySpans(reg, body, at))
    decreases body
  {
    match body {
      case Members(members) =>
        hide LegalSteps, LeadsToOperational, StepsSpans, NoneOperational, MemberNames, MembersKnown, AllHarmless;
        MembersHarmless(reg, task);
        StepsHarmless(reg, TreeEnv(env), ByMember, MemberNames(reg, task), members, at);
      case Plain(_) =>
    }
  }

  /** The tree of a pattern aggregate holds no operational body. */
  ghost predicate PatternsHarmless(reg: Registry, spans: seq<Span>) {
    forall i :: 0 <= i < |spans| ==>
      spans[i].task in reg && (reg[spans[i].task].pattern ==>
        NoneOperational(reg, BodySpans(reg, spans[i].body, spans[i].from + Lead(reg, spans[i].task))))
  }

  lemma {:induction false} PatternsPullNothing(reg: Registry, spans: seq<Span>)
    requires AllInOrder(reg, [], spans)
    ensures PatternsHarmless(reg, spans)
  {
    hide LegalBody, NoneOperational, BodySpans, Lead, NamesDone;
    forall i | 0 <= i < |spans|
      ensures spans[i].task in reg && (reg[spans[i].task].pattern ==>
        NoneOperational(reg, BodySpans(reg, spans[i].body, spans[i].from + Lead(reg, spans[i].task))))
    {
      var s := spans[i];
      assert InOrder(reg, [] + spans[..i], s);
      if reg[s.task].pattern {
        var env :| LegalBody(reg, env, s.task, s.body);
        BodyHarmless(reg, env, s.task, s.body, s.from + Lead(reg, s.task));
      }
    }
  }
}
