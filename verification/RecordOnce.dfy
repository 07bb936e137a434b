/** Deduplication in one Run list: without aggregates nothing a list calls for
    is recorded twice, whoever asks for it. */
module RecordOnce {
  import opened Ops
  import opened Tasks
  import opened Records
  import opened RecordLaws
  import opened Spans = RecordSpans

  /** No task is an aggregate. */
  predicate NoAggregates(reg: Registry) {
    forall name :: name in reg ==> !reg[name].aggregate
  }

  /** The sets of a list outside any tree, whose contents are recordable. */
  ghost predicate InList(reg: Registry, env: Env) {
    env.seen.None? && env.scope.Some? && SetsRecordable(reg, env)
  }

  /** The spans are of different tasks the list did not hold; the list then
      holds exactly those besides, and so do the ones only Needs recorded. */
  ghost predicate AddsViaNeeds(env: Env, after: Env, spans: seq<Span>) {
    && env.scope.Some? && after.scope.Some? && after.seen == env.seen
    && after.scope.value.recorded == env.scope.value.recorded + TaskSet(spans)
    && after.scope.value.viaNeeds == env.scope.value.viaNeeds + TaskSet(spans)
    && EachOnce(spans) && TaskSet(spans) !! env.scope.value.recorded
  }

  lemma {:induction false} AddsNothing(env: Env)
    requires env.scope.Some?
    ensures AddsViaNeeds(env, env, [])
  {
    assert TaskSet([]) == {};
  }

  lemma {:induction false} AddsConcat(env: Env, mid: Env, after: Env, a: seq<Span>, b: seq<Span>)
    requires AddsViaNeeds(env, mid, a) && AddsViaNeeds(mid, after, b)
    ensures AddsViaNeeds(env, after, a + b)
  {
    OnceConcat(a, b);
    hide TaskSet, EachOnce;
  }

  lemma {:induction false} AddsOwn(env: Env, mid: Env, a: seq<Span>, own: Span)
    requires AddsViaNeeds(env, mid, a) && own.task !in env.scope.value.recorded && own.task !in TaskSet(a)
    requires env.seen.None?
    ensures AddsViaNeeds(env, Noted(mid, ByNeed, own.task), a + [own])
  {
    OneTask(own);
    OnceConcat(a, [own]);
    hide TaskSet, EachOnce;
  }

  /** A task that is no aggregate records its needs and then its own body. */
  lemma {:induction false} PlainInside(reg: Registry, env: Env, r: Record, at: nat)
    requires NoAggregates(reg) && LegalRecord(reg, env, r)
    ensures r.task in reg && LegalSteps(reg, env, ByNeed, NeedNames(reg, r.task), r.needs)
    ensures Inside(reg, r, at) == StepsSpans(reg, r.needs, at) && AfterRecord(env, r) == After(env, ByNeed, r.needs)
  {
    hide LegalSteps, LegalParts, StepsSpans, NeedNames, After;
    assert r.body.Plain?;
  }

  lemma {:induction false} NeedOnce(reg: Registry, env: Env, name: string, step: Step, at: nat)
    requires NoAggregates(reg) && InList(reg, env) && LegalStep(reg, env, ByNeed, name, step)
    ensures AddsViaNeeds(env, AfterStep(env, ByNeed, step), StepSpans(reg, step, at))
    decreases step
  {
    if step.Skip? {
      AddsNothing(env);
    } else {
      hide LegalRecord, AddsViaNeeds, SetsRecordable, AfterRecord, RecordSpans, Noted, NoAggregates;
      NeedTaken(reg, env, step.record, at);
    }
  }

  lemma {:induction false} NeedTaken(reg: Registry, env: Env, r: Record, at: nat)
    requires NoAggregates(reg) && InList(reg, env) && LegalRecord(reg, env, r)
    requires env.scope.Some? && r.task !in env.scope.value.recorded
    ensures AddsViaNeeds(env, Noted(AfterRecord(env, r), ByNeed, r.task), RecordSpans(reg, r, at))
    decreases r, 1
  {
    hide *;
    ListSets(reg, env);
    RecordRecordable(reg, env, r);
    NotInside(reg, env, r, at);
    InsideIs(reg, r, at);
    PlainInside(reg, env, r, at);
    NeedsOnce(reg, env, NeedNames(reg, r.task), r.needs, at);
    var own := Span(r.task, r.body, at + |StepsOps(reg, r.needs)|, at + |RecordOps(reg, r)|);
    AddsOwn(env, AfterRecord(env, r), Inside(reg, r, at), own);
  }

  lemma {:induction false} ListSets(reg: Registry, env: Env)
    requires InList(reg, env)
    ensures env.seen.None? && env.scope.Some? && SetsRecordable(reg, env)
  {
  }

  lemma {:induction false} StillInList(reg: Registry, env: Env, after: Env, spans: seq<Span>)
    requires InList(reg, env) && AddsViaNeeds(env, after, spans) && SetsRecordable(reg, after)
    ensures InList(reg, after)
  {
    hide SetsRecordable, TaskSet, EachOnce;
  }

  lemma {:induction false} NeedsOnce(reg: Registry, env: Env, names: seq<string>, steps: seq<Step>, at: nat)
    requires NoAggregates(reg) && InList(reg, env) && LegalSteps(reg, env, ByNeed, names, steps)
    ensures AddsViaNeeds(env, After(env, ByNeed, steps), StepsSpans(reg, steps, at))
    decreases steps
  {
    hide *;
    ListSets(reg, env);
    NoSpans(reg, env, ByNeed, names, at);
    AddsNothing(env);
    if steps != [] {
      LastStep(reg, env, ByNeed, names, steps, at);
      var n := |steps| - 1;
      var rest, mid := steps[..n], After(env, ByNeed, steps[..n]);
      NeedsOnce(reg, env, names[..n], rest, at);
      StepsRecordable(reg, env, ByNeed, names[..n], rest);
      StillInList(reg, env, mid, StepsSpans(reg, rest, at));
      NeedOnce(reg, mid, names[n], steps[n], at + |StepsOps(reg, rest)|);
      AddsConcat(env, mid, AfterStep(mid, ByNeed, steps[n]), StepsSpans(reg, rest, at),
                 StepSpans(reg, steps[n], at + |StepsOps(reg, rest)|));
    }
  }

  /** What a list without aggregates holds after its names: exactly the tasks
      it recorded, each once; those no Needs asked for are named in it. */
  ghost predicate ListedOnce(reg: Registry, names: seq<string>, env: Env, spans: seq<Span>) {
    && env.scope.Some? && env.seen.None? && EachOnce(spans) && env.scope.value.recorded == TaskSet(spans)
    && forall t :: t in TaskSet(spans) && t !in env.scope.value.viaNeeds ==> NamedIn(reg, names, t)
  }

  predicate NamedIn(reg: Registry, names: seq<string>, task: string) {
    exists k :: 0 <= k < |names| && ResolveAlias(reg, names[k]) == Real(task)
  }

  /** No two names of the list stand for one task. */
  predicate DifferentTasks(reg: Registry, names: seq<string>) {
    forall i, j :: 0 <= i < j < |names| ==> ResolveAlias(reg, names[i]) != ResolveAlias(reg, names[j])
  }

  lemma {:induction false} StillNamed(reg: Registry, names: seq<string>, name: string, task: string)
    ensures NamedIn(reg, names, task) ==> NamedIn(reg, names + [name], task)
    ensures ResolveAlias(reg, name) == Real(task) ==> NamedIn(reg, names + [name], task)
  {
    var more := names + [name];
    if k :| 0 <= k < |names| && ResolveAlias(reg, names[k]) == Real(task) {
      assert more[k] == names[k];
    }
    assert more[|names|] == name;
  }

  lemma {:induction false} ListedNext(reg: Registry, names: seq<string>, name: string, env: Env, mid: Env,
                                      spans: seq<Span>, inside: seq<Span>, own: Span)
    requires ListedOnce(reg, names, env, spans) && AddsViaNeeds(env, mid, inside)
    requires ResolveAlias(reg, name) == Real(own.task) && !NamedIn(reg, names, own.task)
    requires own.task !in env.scope.value.viaNeeds && own.task !in TaskSet(inside)
    ensures ListedOnce(reg, names + [name], Noted(mid, ByList, own.task), spans + (inside + [own]))
  {
    OneTask(own);
    OnceConcat(inside, [own]);
    OnceConcat(spans, inside + [own]);
    forall t
      ensures NamedIn(reg, names, t) ==> NamedIn(reg, names + [name], t)
    {
      StillNamed(reg, names, name, t);
    }
    StillNamed(reg, names, name, own.task);
    hide TaskSet, EachOnce, NamedIn;
  }

  lemma {:induction false} ListedSkip(reg: Registry, names: seq<string>, name: string, env: Env, spans: seq<Span>)
    requires ListedOnce(reg, names, env, spans)
    ensures ListedOnce(reg, names + [name], env, spans + [])
  {
    assert spans + [] == spans;
    forall t
      ensures NamedIn(reg, names, t) ==> NamedIn(reg, names + [name], t)
    {
      StillNamed(reg, names, name, t);
    }
    hide TaskSet, EachOnce, NamedIn;
  }

  lemma {:induction false} ListNameOnce(reg: Registry, names: seq<string>, name: string, env: Env, step: Step,
                                        spans: seq<Span>, at: nat)
    requires NoAggregates(reg) && InList(reg, env) && LegalStep(reg, env, ByList, name, step)
    requires ListedOnce(reg, names, env, spans) && DifferentTasks(reg, names + [name])
    ensures ListedOnce(reg, names + [name], AfterStep(env, ByList, step), spans + StepSpans(reg, step, at))
  {
    hide *;
    if step.Skip? {
      SkippedIs(reg, env, step, at);
      ListedSkip(reg, names, name, env, spans);
    } else {
      var r := step.record;
      ListSets(reg, env);
      TakenIs(reg, env, name, step, at);
      NotNamedYet(reg, names, name, r.task);
      RecordRecordable(reg, env, r);
      NotInside(reg, env, r, at);
      InsideIs(reg, r, at);
      PlainInside(reg, env, r, at);
      NeedsOnce(reg, env, NeedNames(reg, r.task), r.needs, at);
      var own := Span(r.task, r.body, at + |StepsOps(reg, r.needs)|, at + |RecordOps(reg, r)|);
      ListedNext(reg, names, name, env, AfterRecord(env, r), spans, Inside(reg, r, at), own);
    }
  }

  lemma {:induction false} SkippedIs(reg: Registry, env: Env, step: Step, at: nat)
    requires step.Skip?
    ensures AfterStep(env, ByList, step) == env && StepSpans(reg, step, at) == []
  {
  }

  lemma {:induction false} TakenIs(reg: Registry, env: Env, name: string, step: Step, at: nat)
    requires LegalStep(reg, env, ByList, name, step) && step.Take? && env.scope.Some?
    ensures step.record.task !in env.scope.value.viaNeeds
    ensures LegalRecord(reg, env, step.record) && ResolveAlias(reg, name) == Real(step.record.task)
    ensures AfterStep(env, ByList, step) == Noted(AfterRecord(env, step.record), ByList, step.record.task)
    ensures StepSpans(reg, step, at) == RecordSpans(reg, step.record, at)
  {
    hide LegalRecord, AfterRecord, RecordSpans;
  }

  lemma {:induction false} NotNamedYet(reg: Registry, names: seq<string>, name: string, task: string)
    requires DifferentTasks(reg, names + [name]) && ResolveAlias(reg, name) == Real(task)
    ensures !NamedIn(reg, names, task)
  {
    var more := names + [name];
    assert more[|names|] == name;
    forall k | 0 <= k < |names|
      ensures ResolveAlias(reg, names[k]) != ResolveAlias(reg, name)
    {
      assert more[k] == names[k];
    }
  }

  lemma {:induction false} NothingListed(reg: Registry)
    ensures InList(reg, ListEnv()) && ListedOnce(reg, [], ListEnv(), [])
  {
    assert TaskSet([]) == {};
  }

  /** A list whose names stand for different tasks records every task once,
      listed before or after something that needs it; only the tasks it names
      and the ones Needs ask for are in it. */
  lemma {:induction false} ListRecordsOnce(reg: Registry, names: seq<string>, steps: seq<Step>, at: nat)
    requires NoAggregates(reg) && LegalSteps(reg, ListEnv(), ByList, names, steps) && DifferentTasks(reg, names)
    ensures ListedOnce(reg, names, After(ListEnv(), ByList, steps), StepsSpans(reg, steps, at))
    decreases |steps|
  {
    hide *;
    SameSize(reg, names, steps);
    NothingListed(reg);
    ListSets(reg, ListEnv());
    NoSpans(reg, ListEnv(), ByList, names, at);
    if steps != [] {
      LastStep(reg, ListEnv(), ByList, names, steps, at);
      var n := |steps| - 1;
      var env := After(ListEnv(), ByList, steps[..n]);
      assert names == names[..n] + [names[n]];
      FewerDifferent(reg, names, n);
      ListRecordsOnce(reg, names[..n], steps[..n], at);
      StepsRecordable(reg, ListEnv(), ByList, names[..n], steps[..n]);
      ListedInList(reg, names[..n], env, StepsSpans(reg, steps[..n], at));
      ListNameOnce(reg, names[..n], names[n], env, steps[n], StepsSpans(reg, steps[..n], at),
                   at + |StepsOps(reg, steps[..n])|);
    }
  }

  lemma {:induction false} SameSize(reg: Registry, names: seq<string>, steps: seq<Step>)
    requires LegalSteps(reg, ListEnv(), ByList, names, steps)
    ensures |steps| == |names|
  {
  }

  lemma {:induction false} FewerDifferent(reg: Registry, names: seq<string>, n: nat)
    requires DifferentTasks(reg, names) && n <= |names|
    ensures DifferentTasks(reg, names[..n])
  {
    hide ResolveAlias;
  }

  lemma {:induction false} ListedInList(reg: Registry, names: seq<string>, env: Env, spans: seq<Span>)
    requires ListedOnce(reg, names, env, spans) && SetsRecordable(reg, env)
    ensures InList(reg, env)
  {
    hide SetsRecordable, TaskSet, EachOnce, NamedIn;
  }

  /** A list holds exactly what was recorded in it, by whomever. */
  ghost predicate Tracks(env: Env, after: Env, spans: seq<Span>) {
    env.scope.Some? ==>
      after.scope.Some? && after.scope.value.recorded == env.scope.value.recorded + TaskSet(spans)
  }

  lemma {:induction false} TracksNothing(env: Env)
    ensures Tracks(env, env, [])
  {
    assert TaskSet([]) == {};
  }

  lemma {:induction false} TracksConcat(env: Env, mid: Env, after: Env, a: seq<Span>, b: seq<Span>)
    requires Tracks(env, mid, a) && Tracks(mid, after, b)
    ensures Tracks(env, after, a + b)
  {
    OnceConcat(a, b);
    hide TaskSet, EachOnce;
  }

  lemma {:induction false} TracksOwn(env: Env, mid: Env, mode: Mode, a: seq<Span>, own: Span)
    requires Tracks(env, mid, a)
    ensures Tracks(env, Noted(mid, mode, own.task), a + [own])
  {
    OneTask(own);
    OnceConcat(a, [own]);
    hide TaskSet, EachOnce;
  }

  lemma {:induction false} StepTracks(reg: Registry, env: Env, mode: Mode, step: Step, at: nat)
    ensures Tracks(env, AfterStep(env, mode, step), StepSpans(reg, step, at))
    decreases step
  {
    TracksNothing(env);
    if step.Take? {
      hide Tracks, AfterRecord, RecordSpans, Noted, Inside;
      var r := step.record;
      RecordTracks(reg, env, r, at);
      InsideIs(reg, r, at);
      var own := Span(r.task, r.body, at + |StepsOps(reg, r.needs)|, at + |RecordOps(reg, r)|);
      TracksOwn(env, AfterRecord(env, r), mode, Inside(reg, r, at), own);
    }
  }

  lemma {:induction false} StepsTracks(reg: Registry, env: Env, mode: Mode, steps: seq<Step>, at: nat)
    ensures Tracks(env, After(env, mode, steps), StepsSpans(reg, steps, at))
    decreases steps
  {
    TracksNothing(env);
    if steps != [] {
      hide Tracks, AfterStep, StepSpans, StepsOps;
      var rest, last := steps[..|steps| - 1], steps[|steps| - 1];
      StepsTracks(reg, env, mode, rest, at);
      StepTracks(reg, After(env, mode, rest), mode, last, at + |StepsOps(reg, rest)|);
      TracksConcat(env, After(env, mode, rest), After(env, mode, steps), StepsSpans(reg, rest, at),
                   StepSpans(reg, last, at + |StepsOps(reg, rest)|));
    }
  }

  lemma {:induction false} RecordTracks(reg: Registry, env: Env, r: Record, at: nat)
    ensures Tracks(env, AfterRecord(env, r), Inside(reg, r, at))
    decreases r
  {
    hide Tracks, After, StepsSpans, BodySpans, StepsOps, AfterBody, Lead;
    var mid, start := After(env, ByNeed, r.needs), at + |StepsOps(reg, r.needs)| + Lead(reg, r.task);
    StepsTracks(reg, env, ByNeed, r.needs, at);
    BodyTracks(reg, mid, r.body, start);
    TracksConcat(env, mid, AfterBody(mid, r.body), StepsSpans(reg, r.needs, at), BodySpans(reg, r.body, start));
  }

  lemma {:induction false} BodyTracks(reg: Registry, env: Env, body: Body, at: nat)
    ensures Tracks(env, AfterBody(env, body), BodySpans(reg, body, at))
    decreases body
  {
    match body {
      case Members(members) =>
        hide StepsSpans, After, TaskSet;
        StepsTracks(reg, TreeEnv(env), ByMember, members, at);
      case Plain(_) =>
        TracksNothing(env);
    }
  }

  /** A Needs is recorded right there exactly if neither the list has recorded
      its task before, be it a name, a need or a member, nor the tree has. */
  lemma {:induction false} NeedTakenIff(reg: Registry, env: Env, names: seq<string>, steps: seq<Step>,
                                        before: seq<Span>, at: nat, k: nat)
    requires LegalSteps(reg, env, ByNeed, names, steps) && k < |steps| && env.scope.Some?
    requires env.scope.value.recorded == TaskSet(before) && (env.seen.Some? ==> env.seen.value <= TaskSet(before))
    requires SetsRecordable(reg, env)
    ensures |names| == |steps| && ResolveAlias(reg, names[k]).Real?
    ensures steps[k].Take? <==>
              ResolveAlias(reg, names[k]).name !in TaskSet(before + StepsSpans(reg, steps[..k], at))
  {
    hide *;
    SameLength(reg, env, ByNeed, names, steps);
    StepOf(reg, env, ByNeed, names, steps, k);
    StepsTracks(reg, env, ByNeed, steps[..k], at);
    OnceConcat(before, StepsSpans(reg, steps[..k], at));
    LegalFirst(reg, env, ByNeed, names, steps, k);
    if env.seen.Some? {
      StepsOnce(reg, env, ByNeed, names[..k], steps[..k], at);
    } else {
      NoTreeAfter(env, ByNeed, steps[..k]);
    }
    NeedDecides(reg, env, After(env, ByNeed, steps[..k]), names[k], steps[k], before, StepsSpans(reg, steps[..k], at));
  }

  lemma {:induction false} LegalFirst(reg: Registry, env: Env, mode: Mode, names: seq<string>, steps: seq<Step>, k: nat)
    requires LegalSteps(reg, env, mode, names, steps) && k <= |steps| == |names|
    ensures LegalSteps(reg, env, mode, names[..k], steps[..k])
    decreases |steps|
  {
    hide LegalStep;
    if k == |steps| {
      assert steps[..k] == steps && names[..k] == names;
    } else {
      var n := |steps| - 1;
      LegalFirst(reg, env, mode, names[..n], steps[..n], k);
      assert steps[..n][..k] == steps[..k] && names[..n][..k] == names[..k];
    }
  }

  /** Outside a tree what is recorded leaves no tree behind. */
  lemma {:induction false} NoTreeAfter(env: Env, mode: Mode, steps: seq<Step>)
    requires env.seen.None?
    ensures After(env, mode, steps).seen.None?
    decreases steps
  {
    if steps != [] {
      hide AfterStep;
      NoTreeAfter(env, mode, steps[..|steps| - 1]);
      NoTreeAfterStep(After(env, mode, steps[..|steps| - 1]), mode, steps[|steps| - 1]);
    }
  }

  lemma {:induction false} NoTreeAfterStep(env: Env, mode: Mode, step: Step)
    requires env.seen.None?
    ensures AfterStep(env, mode, step).seen.None?
    decreases step
  {
    if step.Take? {
      hide AfterRecord;
      NoTreeAfterRecord(env, step.record);
    }
  }

  lemma {:induction false} NoTreeAfterRecord(env: Env, r: Record)
    requires env.seen.None?
    ensures AfterRecord(env, r).seen.None?
    decreases r
  {
    hide After;
    NoTreeAfter(env, ByNeed, r.needs);
  }

  lemma {:induction false} NeedDecides(reg: Registry, env: Env, now: Env, name: string, step: Step, before: seq<Span>,
                                       more: seq<Span>)
    requires LegalStep(reg, now, ByNeed, name, step) && env.scope.Some? && Tracks(env, now, more)
    requires env.scope.value.recorded == TaskSet(before) && TaskSet(before + more) == TaskSet(before) + TaskSet(more)
    requires env.seen.Some? ==> env.seen.value <= TaskSet(before) && Fresh(env, now, more)
    requires env.seen.None? ==> now.seen.None?
    ensures ResolveAlias(reg, name).Real?
    ensures step.Take? <==> ResolveAlias(reg, name).name !in TaskSet(before + more)
  {
    hide LegalRecord, TaskSet, EachOnce;
  }

  /** A member is recorded right there exactly if its tree has not recorded its
      task before, as a member or as a need. */
  lemma {:induction false} MemberTakenIff(reg: Registry, env: Env, names: seq<string>, steps: seq<Step>,
                                          before: seq<Span>, at: nat, k: nat)
    requires LegalSteps(reg, env, ByMember, names, steps) && k < |steps| && SetsRecordable(reg, env)
    requires env.seen == Some(TaskSet(before))
    ensures |names| == |steps| && ResolveAlias(reg, names[k]).Real?
    ensures steps[k].Take? <==>
              ResolveAlias(reg, names[k]).name !in TaskSet(before + StepsSpans(reg, steps[..k], at))
  {
    hide *;
    SameLength(reg, env, ByMember, names, steps);
    StepOf(reg, env, ByMember, names, steps, k);
    LegalFirst(reg, env, ByMember, names, steps, k);
    StepsOnce(reg, env, ByMember, names[..k], steps[..k], at);
    OnceConcat(before, StepsSpans(reg, steps[..k], at));
    MemberDecides(reg, env, After(env, ByMember, steps[..k]), names[k], steps[k], before,
                  StepsSpans(reg, steps[..k], at));
  }

  lemma {:induction false} MemberDecides(reg: Registry, env: Env, now: Env, name: string, step: Step,
                                         before: seq<Span>, more: seq<Span>)
    requires LegalStep(reg, now, ByMember, name, step) && Fresh(env, now, more) && env.seen == Some(TaskSet(before))
    requires TaskSet(before + more) == TaskSet(before) + TaskSet(more)
    ensures ResolveAlias(reg, name).Real?
    ensures step.Take? <==> ResolveAlias(reg, name).name !in TaskSet(before + more)
  {
    hide LegalRecord, TaskSet, EachOnce;
  }
}
