/** What follows for every recorded list: when it can be recorded at all, that
    it is unique, balanced, in order and free of repeats inside a tree. */
module RecordLaws {
  import opened Ops
  import opened Blocks
  import opened Tasks
  import opened Records

  /** Whatever the sets hold can be recorded. */
  ghost predicate SetsRecordable(reg: Registry, env: Env) {
    && (env.seen.Some? ==> forall t :: t in env.seen.value ==> Recordable(reg, t))
    && (env.scope.Some? ==> forall t :: t in env.scope.value.recorded + env.scope.value.viaNeeds ==> Recordable(reg, t))
  }

  lemma {:induction false} NotedRecordable(reg: Registry, env: Env, mode: Mode, task: string)
    requires SetsRecordable(reg, env) && Recordable(reg, task)
    ensures SetsRecordable(reg, Noted(env, mode, task))
  {
    hide Recordable;
  }

  /** A name is as recordable as the task it resolves to. */
  lemma {:induction false} NameRecordable(reg: Registry, name: string)
    requires ResolveAlias(reg, name).Real? && Recordable(reg, ResolveAlias(reg, name).name)
    ensures Recordable(reg, name)
  {
    if name in reg && reg[name].aliasOf != "" {
      hide Recordable;
      RecordableBuild(reg, name);
    }
  }

  lemma {:induction false} StepRecordable(reg: Registry, env: Env, mode: Mode, name: string, step: Step)
    requires SetsRecordable(reg, env) && LegalStep(reg, env, mode, name, step)
    ensures Recordable(reg, name) && SetsRecordable(reg, AfterStep(env, mode, step))
    decreases step
  {
    var target := ResolveAlias(reg, name).name;
    if !Skips(env, mode, target) {
      hide Recordable, LegalRecord;
      RecordRecordable(reg, env, step.record);
      NotedRecordable(reg, AfterRecord(env, step.record), mode, target);
    }
    hide Recordable;
    NameRecordable(reg, name);
  }

  lemma {:induction false} StepsRecordable(reg: Registry, env: Env, mode: Mode, names: seq<string>, steps: seq<Step>)
    requires SetsRecordable(reg, env) && LegalSteps(reg, env, mode, names, steps)
    ensures SetsRecordable(reg, After(env, mode, steps))
    ensures forall k :: 0 <= k < |names| ==> Recordable(reg, names[k])
    decreases steps
  {
    hide Recordable, LegalStep, SetsRecordable;
    if steps != [] {
      var rest, last := steps[..|steps| - 1], |names| - 1;
      StepsRecordable(reg, env, mode, names[..last], rest);
      StepRecordable(reg, After(env, mode, rest), mode, names[last], steps[last]);
      assert forall k :: 0 <= k < last ==> names[..last][k] == names[k];
    }
  }

  lemma {:induction false} RecordRecordable(reg: Registry, env: Env, r: Record)
    requires SetsRecordable(reg, env) && LegalRecord(reg, env, r)
    ensures Recordable(reg, r.task) && SetsRecordable(reg, AfterRecord(env, r))
    decreases r
  {
    hide Recordable, LegalSteps, LegalBody, SetsRecordable, NeedNames, MemberNames, MembersKnown;
    StepsRecordable(reg, env, ByNeed, NeedNames(reg, r.task), r.needs);
    BodyRecordable(reg, After(env, ByNeed, r.needs), r.task, r.body);
    BodySound(reg, After(env, ByNeed, r.needs), r.task, r.body);
    AllCallsRecordable(reg, r.task);
  }

  lemma {:induction false} BodySound(reg: Registry, env: Env, task: string, body: Body)
    requires task in reg && reg[task].aliasOf == "" && !reg[task].whenFails && NeedsNamed(reg, task)
    requires LegalBody(reg, env, task, body)
    ensures Sound(reg, task)
  {
  }

  /** A sound task is recordable if its needs and its body's names are. */
  lemma {:induction false} AllCallsRecordable(reg: Registry, task: string)
    requires Sound(reg, task) && reg[task].aliasOf == ""
    requires forall k :: 0 <= k < |NeedNames(reg, task)| ==> Recordable(reg, NeedNames(reg, task)[k])
    requires forall n :: n in BodyNames(reg, task) ==> Recordable(reg, n)
    ensures Recordable(reg, task)
  {
    hide Recordable, NeedNames, MemberNames, RunNames, Sound;
    RecordableBuild(reg, task);
  }

  /** What a body itself names: members, or the names of its Run lists. */
  ghost function BodyNames(reg: Registry, task: string): seq<string>
    requires task in reg
  {
    if reg[task].aggregate then MemberNames(reg, task) else RunNames(reg[task].actions)
  }

  lemma {:induction false} BodyRecordable(reg: Registry, env: Env, task: string, body: Body)
    requires SetsRecordable(reg, env) && task in reg && LegalBody(reg, env, task, body)
    ensures SetsRecordable(reg, AfterBody(env, body))
    ensures forall n :: n in BodyNames(reg, task) ==> Recordable(reg, n)
    decreases body
  {
    hide Recordable, LegalSteps, LegalParts, MemberNames, MembersKnown;
    match body {
      case Members(members) =>
        StepsRecordable(reg, TreeEnv(env), ByMember, MemberNames(reg, task), members);
      case Plain(parts) =>
        PartsRecordable(reg, reg[task].actions, parts);
    }
  }

  lemma {:induction false} PartsRecordable(reg: Registry, actions: seq<Action>, parts: seq<Part>)
    requires LegalParts(reg, actions, parts)
    ensures forall n :: n in RunNames(actions) ==> Recordable(reg, n)
    decreases parts
  {
    hide Recordable, LegalPart;
    if parts != [] {
      PartsRecordable(reg, actions[..|actions| - 1], parts[..|parts| - 1]);
      PartRecordable(reg, actions[|actions| - 1], parts[|parts| - 1]);
    }
  }

  lemma {:induction false} PartRecordable(reg: Registry, action: Action, part: Part)
    requires LegalPart(reg, action, part)
    ensures action.RunList? ==> forall n :: n in action.names ==> Recordable(reg, n)
    decreases part
  {
    hide Recordable, LegalSteps;
    if action.RunList? {
      StepsRecordable(reg, ListEnv(), ByList, action.names, part.steps);
    }
  }

  /** A registry whose bodies emit balanced when-blocks. */
  predicate EmitsBalanced(reg: Registry) {
    forall name :: name in reg ==>
      forall k :: 0 <= k < |reg[name].actions| && reg[name].actions[k].Emit? ==> Balanced(reg[name].actions[k].ops)
  }

  /** The actions of one body emit balanced when-blocks. */
  predicate ActionsBalanced(actions: seq<Action>) {
    forall k :: 0 <= k < |actions| && actions[k].Emit? ==> Balanced(actions[k].ops)
  }

  lemma {:induction false} NothingBalanced()
    ensures Balanced([])
  {
  }

  lemma {:induction false} StepBalanced(reg: Registry, env: Env, mode: Mode, name: string, step: Step)
    requires EmitsBalanced(reg) && LegalStep(reg, env, mode, name, step)
    ensures Balanced(StepOps(reg, step))
    decreases step
  {
    hide Balanced, EmitsBalanced, LegalRecord, RecordOps;
    NothingBalanced();
    if step.Take? {
      RecordBalanced(reg, env, step.record);
    }
  }

  lemma {:induction false} StepsBalanced(reg: Registry, env: Env, mode: Mode, names: seq<string>, steps: seq<Step>)
    requires EmitsBalanced(reg) && LegalSteps(reg, env, mode, names, steps)
    ensures Balanced(StepsOps(reg, steps))
    decreases steps
  {
    hide Balanced, EmitsBalanced, LegalStep, StepOps;
    NothingBalanced();
    if steps != [] {
      var rest, last := steps[..|steps| - 1], |names| - 1;
      StepsBalanced(reg, env, mode, names[..last], rest);
      StepBalanced(reg, After(env, mode, rest), mode, names[last], steps[last]);
      BalancedConcat(StepsOps(reg, rest), StepOps(reg, steps[last]));
    }
  }

  lemma {:induction false} RecordBalanced(reg: Registry, env: Env, r: Record)
    requires EmitsBalanced(reg) && LegalRecord(reg, env, r)
    ensures Balanced(RecordOps(reg, r))
    decreases r
  {
    hide Balanced, EmitsBalanced, LegalSteps, LegalBody, StepsOps, BodyOps, Envelope, NeedNames;
    StepsBalanced(reg, env, ByNeed, NeedNames(reg, r.task), r.needs);
    BodyBalanced(reg, After(env, ByNeed, r.needs), r.task, r.body);
    EnvelopeBalanced(reg, r.task, BodyOps(reg, r.body));
    BalancedConcat(StepsOps(reg, r.needs), Envelope(reg, r.task, BodyOps(reg, r.body)));
  }

  lemma {:induction false} EnvelopeBalanced(reg: Registry, task: string, inner: seq<Op>)
    requires Balanced(inner)
    ensures Balanced(Envelope(reg, task, inner))
  {
    hide Balanced;
    if task in reg && reg[task].guard != [] {
      Wrapped(ControlOp(KindWhenBegin, "when." + task, reg[task].guard, reg[task].privileged), inner,
              ControlOp(KindWhenEnd, "", [], reg[task].privileged));
    }
  }

  lemma {:induction false} BodyBalanced(reg: Registry, env: Env, task: string, body: Body)
    requires EmitsBalanced(reg) && task in reg && LegalBody(reg, env, task, body)
    ensures Balanced(BodyOps(reg, body))
    decreases body
  {
    match body {
      case Members(members) =>
        hide Balanced, EmitsBalanced, LegalSteps, StepsOps, MemberNames, MembersKnown;
        StepsBalanced(reg, TreeEnv(env), ByMember, MemberNames(reg, task), members);
      case Plain(parts) =>
        assert ActionsBalanced(reg[task].actions);
        hide Balanced, EmitsBalanced, LegalParts, PartsOps, ActionsBalanced;
        PartsBalanced(reg, reg[task].actions, parts);
    }
  }

  lemma {:induction false} PartsBalanced(reg: Registry, actions: seq<Action>, parts: seq<Part>)
    requires EmitsBalanced(reg) && ActionsBalanced(actions) && LegalParts(reg, actions, parts)
    ensures Balanced(PartsOps(reg, parts))
    decreases parts
  {
    hide Balanced, EmitsBalanced, LegalPart, PartOps;
    NothingBalanced();
    if parts != [] {
      var rest, last := parts[..|parts| - 1], |parts| - 1;
      PartsBalanced(reg, actions[..last], rest);
      PartBalanced(reg, actions[last], parts[last]);
      BalancedConcat(PartsOps(reg, rest), PartOps(reg, parts[last]));
    }
  }

  lemma {:induction false} PartBalanced(reg: Registry, action: Action, part: Part)
    requires EmitsBalanced(reg) && LegalPart(reg, action, part) && (action.Emit? ==> Balanced(action.ops))
    ensures Balanced(PartOps(reg, part))
    decreases part
  {
    hide Balanced, EmitsBalanced, LegalSteps, StepsOps;
    if action.RunList? {
      StepsBalanced(reg, ListEnv(), ByList, action.names, part.steps);
    }
  }

  /** The record of a list is determined by the registry and the names. */
  lemma {:induction false} OneStep(reg: Registry, env: Env, mode: Mode, name: string, a: Step, b: Step)
    requires LegalStep(reg, env, mode, name, a) && LegalStep(reg, env, mode, name, b)
    ensures a == b
    decreases a
  {
    if a.Take? {
      hide LegalRecord;
      OneRecord(reg, env, a.record, b.record);
    }
  }

  lemma {:induction false} OneList(reg: Registry, env: Env, mode: Mode, names: seq<string>, a: seq<Step>, b: seq<Step>)
    requires LegalSteps(reg, env, mode, names, a) && LegalSteps(reg, env, mode, names, b)
    ensures a == b
    decreases a
  {
    hide LegalStep;
    if a != [] {
      var last := |names| - 1;
      OneList(reg, env, mode, names[..last], a[..last], b[..last]);
      OneStep(reg, After(env, mode, a[..last]), mode, names[last], a[last], b[last]);
      assert a == a[..last] + [a[last]] && b == b[..last] + [b[last]];
    }
  }

  lemma {:induction false} OneRecord(reg: Registry, env: Env, a: Record, b: Record)
    requires LegalRecord(reg, env, a) && LegalRecord(reg, env, b) && a.task == b.task
    ensures a == b
    decreases a
  {
    hide LegalSteps, LegalBody, NeedNames;
    OneList(reg, env, ByNeed, NeedNames(reg, a.task), a.needs, b.needs);
    OneBody(reg, After(env, ByNeed, a.needs), a.task, a.body, b.body);
  }

  lemma {:induction false} OneBody(reg: Registry, env: Env, task: string, a: Body, b: Body)
    requires task in reg && LegalBody(reg, env, task, a) && LegalBody(reg, env, task, b)
    ensures a == b
    decreases a
  {
    hide LegalSteps, LegalParts, MemberNames, MembersKnown;
    match a {
      case Members(members) =>
        OneList(reg, TreeEnv(env), ByMember, MemberNames(reg, task), members, b.members);
      case Plain(parts) =>
        OnePartList(reg, reg[task].actions, parts, b.parts);
    }
  }

  lemma {:induction false} OnePartList(reg: Registry, actions: seq<Action>, a: seq<Part>, b: seq<Part>)
    requires LegalParts(reg, actions, a) && LegalParts(reg, actions, b)
    ensures a == b
    decreases a
  {
    hide LegalPart;
    if a != [] {
      var last := |actions| - 1;
      OnePartList(reg, actions[..last], a[..last], b[..last]);
      OnePart(reg, actions[last], a[last], b[last]);
      assert a == a[..last] + [a[last]] && b == b[..last] + [b[last]];
    }
  }

  lemma {:induction false} OnePart(reg: Registry, action: Action, a: Part, b: Part)
    requires LegalPart(reg, action, a) && LegalPart(reg, action, b)
    ensures a == b
    decreases a
  {
    if action.RunList? {
      hide LegalSteps;
      OneList(reg, ListEnv(), ByList, action.names, a.steps, b.steps);
    }
  }

  /** No task declares Needs. */
  predicate NoNeeds(reg: Registry) {
    forall name :: name in reg ==> reg[name].needs == []
  }

  predicate NothingViaNeeds(env: Env) {
    env.scope.Some? ==> env.scope.value.viaNeeds == {}
  }

  /** Without Needs no listed name is ever skipped. */
  lemma {:induction false} StepTaken(reg: Registry, env: Env, mode: Mode, name: string, step: Step)
    requires NoNeeds(reg) && LegalStep(reg, env, mode, name, step) && NothingViaNeeds(env) && mode != ByNeed
    ensures NothingViaNeeds(AfterStep(env, mode, step)) && (mode == ByList ==> step.Take?)
    decreases step
  {
    if step.Take? {
      hide LegalRecord, AfterRecord;
      RecordTaken(reg, env, step.record);
    }
  }

  lemma {:induction false} StepsTaken(reg: Registry, env: Env, mode: Mode, names: seq<string>, steps: seq<Step>)
    requires NoNeeds(reg) && LegalSteps(reg, env, mode, names, steps) && NothingViaNeeds(env) && mode != ByNeed
    ensures NothingViaNeeds(After(env, mode, steps))
    ensures mode == ByList ==> forall k :: 0 <= k < |steps| ==> steps[k].Take?
    decreases steps
  {
    hide LegalStep, NoNeeds, NothingViaNeeds;
    if steps != [] {
      var rest, last := steps[..|steps| - 1], |names| - 1;
      StepsTaken(reg, env, mode, names[..last], rest);
      StepTaken(reg, After(env, mode, rest), mode, names[last], steps[last]);
      assert forall k :: 0 <= k < last ==> rest[k] == steps[k];
    }
  }

  lemma {:induction false} RecordTaken(reg: Registry, env: Env, r: Record)
    requires NoNeeds(reg) && LegalRecord(reg, env, r) && NothingViaNeeds(env)
    ensures r.needs == [] && NothingViaNeeds(AfterRecord(env, r))
    decreases r
  {
    hide LegalSteps, NothingViaNeeds, MemberNames, MembersKnown, LegalParts;
    SameLength(reg, env, ByNeed, NeedNames(reg, r.task), r.needs);
    match r.body {
      case Members(members) =>
        TreeKeepsNeeds(env);
        StepsTaken(reg, TreeEnv(env), ByMember, MemberNames(reg, r.task), members);
        LeaveKeepsNeeds(env, After(TreeEnv(env), ByMember, members));
      case Plain(_) =>
    }
  }

  lemma {:induction false} SameLength(reg: Registry, env: Env, mode: Mode, names: seq<string>, steps: seq<Step>)
    requires LegalSteps(reg, env, mode, names, steps)
    ensures |steps| == |names|
  {
  }

  lemma {:induction false} TreeKeepsNeeds(env: Env)
    requires NothingViaNeeds(env)
    ensures NothingViaNeeds(TreeEnv(env))
  {
  }

  lemma {:induction false} LeaveKeepsNeeds(env: Env, inner: Env)
    requires NothingViaNeeds(inner)
    ensures NothingViaNeeds(LeaveTree(env, inner))
  {
  }

  /** A plan without Needs records every name of a Run list, in order. */
  lemma {:induction false} WithoutNeeds(reg: Registry, names: seq<string>, steps: seq<Step>)
    requires NoNeeds(reg) && LegalSteps(reg, ListEnv(), ByList, names, steps)
    ensures |steps| == |names|
    ensures forall k :: 0 <= k < |steps| ==> steps[k].Take? && ResolveAlias(reg, names[k]) == Real(steps[k].record.task)
  {
    hide NoNeeds;
    StepsTaken(reg, ListEnv(), ByList, names, steps);
    SameLength(reg, ListEnv(), ByList, names, steps);
    forall k | 0 <= k < |steps|
      ensures steps[k].Take? && ResolveAlias(reg, names[k]) == Real(steps[k].record.task)
    {
      StepOf(reg, ListEnv(), ByList, names, steps, k);
    }
  }

  lemma {:induction false} StepOf(reg: Registry, env: Env, mode: Mode, names: seq<string>, steps: seq<Step>, k: nat)
    requires LegalSteps(reg, env, mode, names, steps) && k < |steps| == |names|
    ensures LegalStep(reg, After(env, mode, steps[..k]), mode, names[k], steps[k])
    decreases |steps|
  {
    hide LegalStep;
    var n := |steps| - 1;
    if k < n {
      StepOf(reg, env, mode, names[..n], steps[..n], k);
      assert steps[..n][..k] == steps[..k];
    }
  }

  /** An alias of a registered task that is no alias itself, or no alias. */
  predicate AliasHolds(reg: Registry, name: string) {
    name in reg && (reg[name].aliasOf != "" ==> reg[name].aliasOf in reg && reg[reg[name].aliasOf].aliasOf == "")
  }

  /** What is asked of a task's own fields: its opaque guard holds, each need
      names a task, and an aggregate lists known members, some of which it
      takes. */
  ghost predicate FieldsOk(reg: Registry, x: string)
    requires x in reg
  {
    && !reg[x].whenFails
    && (forall k :: 0 <= k < |reg[x].needs| ==> Named(reg.Keys, reg[x].prefix, reg[x].needs[k]) in reg)
    && (reg[x].aggregate ==>
          && (!reg[x].pattern ==> forall k :: 0 <= k < |reg[x].members| ==> AliasHolds(reg, reg[x].members[k]))
          && exists m :: Takes(reg, x, m))
  }

  /** Aggregate x takes m: listed or matched, active, and for a pattern neither
      x, nor an alias of x, nor operational work. */
  ghost predicate Takes(reg: Registry, x: string, m: string)
    requires x in reg
  {
    && m in reg && !reg[m].inactive
    && if reg[x].pattern then m in reg[x].matched && m != x && reg[m].aliasOf != x && !LeadsToOperational(reg, m)
       else m in reg[x].members
  }

  /** Recording task x calls for y: a need's task, a member, or a name its body
      runs. */
  ghost predicate CallsFor(reg: Registry, x: string, y: string)
    requires x in reg
  {
    || (exists k :: 0 <= k < |reg[x].needs| && y in reg && y == Named(reg.Keys, reg[x].prefix, reg[x].needs[k]))
    || (reg[x].aggregate && Takes(reg, x, y))
    || (!reg[x].aggregate && exists k ::
          0 <= k < |reg[x].actions| && reg[x].actions[k].RunList? && y in reg[x].actions[k].names)
  }

  lemma {:induction false} MemberMeans(reg: Registry, x: string, m: string)
    requires x in reg
    ensures m in MemberNames(reg, x) <==> Takes(reg, x, m)
  {
    hide LeadsToOperational;
  }

  lemma {:induction false} FieldsMean(reg: Registry, x: string)
    requires x in reg && reg[x].aliasOf == ""
    ensures Sound(reg, x) <==> FieldsOk(reg, x)
  {
    forall m
      ensures m in MemberNames(reg, x) <==> Takes(reg, x, m)
    {
      MemberMeans(reg, x, m);
    }
    hide MemberNames, Takes;
    var names := MemberNames(reg, x);
    if names != [] {
      assert names[0] in names;
    }
  }

  lemma {:induction false} CallsMean(reg: Registry, x: string, y: string)
    requires x in reg && reg[x].aliasOf == ""
    ensures (x, y) in CallGraph(reg) <==> CallsFor(reg, x, y)
  {
    MemberMeans(reg, x, y);
    forall k | 0 <= k < |reg[x].needs|
      ensures ResolveNeed(reg.Keys, reg[x].prefix, reg[x].needs[k]) == Some(y) <==>
                y in reg && y == Named(reg.Keys, reg[x].prefix, reg[x].needs[k])
    {
    }
    hide MemberNames, Takes, Named, ResolveNeed, ResolvedNeeds, RunNames;
    assert (x, y) in CallGraph(reg) <==> y in Calls(reg, x);
  }

  /** What it takes for a name to be recordable, in the tasks' own fields: an
      alias's target is, or the task's fields are in order and all it calls for
      is recordable. */
  lemma {:induction false} RecordableMeans(reg: Registry, x: string)
    ensures Recordable(reg, x) <==>
              AliasHolds(reg, x) &&
              if reg[x].aliasOf != "" then Recordable(reg, reg[x].aliasOf)
              else FieldsOk(reg, x) && forall y :: CallsFor(reg, x, y) ==> Recordable(reg, y)
  {
    if Recordable(reg, x) {
      RecordableStep(reg, x);
    }
    hide Recordable;
    if x in reg {
      if reg[x].aliasOf == "" {
        FieldsMean(reg, x);
        forall y
          ensures (x, y) in CallGraph(reg) <==> CallsFor(reg, x, y)
        {
          CallsMean(reg, x, y);
        }
      } else {
        AliasCall(reg, x);
      }
      hide CallGraph, CallsFor, FieldsOk;
      if Sound(reg, x) && forall y :: (x, y) in CallGraph(reg) ==> Recordable(reg, y) {
        RecordableBuild(reg, x);
      }
    }
  }

  lemma {:induction false} AliasCall(reg: Registry, x: string)
    requires x in reg && reg[x].aliasOf != ""
    ensures forall y :: (x, y) in CallGraph(reg) <==> y == reg[x].aliasOf
  {
    assert Calls(reg, x) == [reg[x].aliasOf];
  }
}
