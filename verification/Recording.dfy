/** Recording task bodies: the session of api/plan.go with the Needs scopes of
    api/task_needs.go and the aggregate trees of api/aggregate.go. */
module Recording {
  import opened Walks
  import opened Ops
  import opened Tasks
  import opened Records

  datatype Error =
    | Recursion(chain: seq<string>)
    | UnknownTask(name: string)
    | UnknownNeed(name: string, need: string)
    | UnknownMember(name: string, member: string)
    | BrokenAlias(name: string)
    | WhenFails(name: string)
    | NoMembers(name: string)

  /** Each entry calls for the next one. */
  ghost predicate CallChain(reg: Registry, stack: seq<string>) {
    forall i :: 0 <= i < |stack| - 1 ==> (stack[i], stack[i + 1]) in CallGraph(reg)
  }

  /** What an error says is so; a recursion names a closed chain of calls. */
  ghost predicate Tells(reg: Registry, e: Error) {
    match e
    case Recursion(chain) => |chain| >= 2 && chain[0] == chain[|chain| - 1] && CallChain(reg, chain)
    case UnknownTask(name) => name !in reg
    case UnknownNeed(name, need) =>
      name in reg && need in reg[name].needs && ResolveNeed(reg.Keys, reg[name].prefix, need).None?
    case UnknownMember(name, member) => name in reg && member in Listed(reg[name]) && member !in reg
    case BrokenAlias(name) => ResolveAlias(reg, name).Broken?
    case WhenFails(name) => name in reg && reg[name].whenFails
    case NoMembers(name) => name in reg && reg[name].aggregate && MemberNames(reg, name) == []
  }

  datatype MemberList = Known(names: seq<string>) | Unknown(error: Error)

  lemma {:induction false} MissingTells(reg: Registry, name: string, k: nat)
    requires name in reg && k < |Listed(reg[name])| && Listed(reg[name])[k] !in reg
    ensures Tells(reg, UnknownMember(name, Listed(reg[name])[k]))
  {
  }

  /** activeMembers: the listed members that are active; an unknown one or a
      broken alias is an error. */
  method ActiveMembers(reg: Registry, name: string) returns (r: MemberList)
    requires name in reg
    ensures r.Known? <==> MembersKnown(reg, name)
    ensures r.Known? ==> r.names == ActiveNames(reg, Listed(reg[name]))
    ensures r.Unknown? ==> Tells(reg, r.error)
  {
    hide Listed, Tells;
    var members := Listed(reg[name]);
    var names: seq<string> := [];
    for k := 0 to |members|
      invariant forall j :: 0 <= j < k ==> members[j] in reg && ResolveAlias(reg, members[j]).Real?
      invariant names == ActiveNames(reg, members[..k])
    {
      assert members[..k + 1][..k] == members[..k];
      if members[k] !in reg {
        MissingTells(reg, name, k);
        return Unknown(UnknownMember(name, members[k]));
      }
      if ResolveAlias(reg, members[k]).Broken? {
        BrokenTells(reg, members[k]);
        return Unknown(BrokenAlias(members[k]));
      }
      if !reg[members[k]].inactive {
        names := names + [members[k]];
      }
    }
    assert members[..|members|] == members;
    r := Known(names);
  }

  /** patternMembers: the matched tasks that qualify, in matched order. */
  method PatternMembers(reg: Registry, name: string, matched: seq<string>) returns (names: seq<string>)
    ensures names == QualifiedNames(reg, name, matched)
    ensures forall m :: m in names <==>
              && m in matched && m != name && m in reg && reg[m].aliasOf != name && !reg[m].inactive
              && !LeadsToOperational(reg, m)
  {
    names := [];
    for k := 0 to |matched|
      invariant names == QualifiedNames(reg, name, matched[..k])
    {
      assert matched[..k + 1][..k] == matched[..k];
      var n := matched[k];
      if n == name || n !in reg || reg[n].inactive || reg[n].aliasOf == name {
        continue;
      }
      var operational := IsOperational(reg, n);
      if !operational {
        names := names + [n];
      }
    }
    assert matched[..|matched|] == matched;
  }

  lemma {:induction false} FewerNames(reg: Registry, stack: seq<string>, name: string)
    ensures name in reg && name !in stack ==>
              |set n | n in reg && n !in stack + [name]| < |set n | n in reg && n !in stack|
    ensures |set n | n in reg && n !in stack + [name]| <= |set n | n in reg && n !in stack|
  {
    var all, rest := set n | n in reg && n !in stack, set n | n in reg && n !in stack + [name];
    assert forall n :: n in stack + [name] <==> n in stack || n == name;
    if name in reg && name !in stack {
      assert all == rest + {name};
    } else {
      assert all == rest;
    }
  }

  /** What is called from the top of the stack continues the chain. */
  lemma {:induction false} ChainNext(reg: Registry, stack: seq<string>, y: string)
    requires CallChain(reg, stack) && stack != [] && (stack[|stack| - 1], y) in CallGraph(reg)
    ensures CallChain(reg, stack + [y])
  {
  }

  /** A recordable task is not called from below itself. */
  lemma {:induction false} NotOnStack(reg: Registry, stack: seq<string>, name: string)
    requires CallChain(reg, stack + [name]) && Recordable(reg, name)
    ensures name !in stack
  {
    if name in stack {
      var i: nat :| i < |stack| && stack[i] == name;
      var more := stack + [name];
      assert (more[i], more[i + 1]) in CallGraph(reg);
      NotItself(reg, name, more[i + 1]);
      ChainReaches(reg, more, i + 1, |stack|);
    }
  }

  lemma {:induction false} ChainReaches(reg: Registry, chain: seq<string>, i: nat, j: nat)
    requires CallChain(reg, chain) && i <= j < |chain|
    ensures Reach(CallGraph(reg), chain[i], chain[j])
    decreases j - i
  {
    hide CallGraph, Reach;
    ReachRefl(CallGraph(reg), chain[j]);
    if i < j {
      ChainReaches(reg, chain, i + 1, j);
      EdgeThenReach(CallGraph(reg), chain[i], chain[i + 1], chain[j]);
    }
  }

  /** The closed chain a recursion is reported with. */
  lemma {:induction false} ClosedChain(reg: Registry, stack: seq<string>, name: string, i: nat)
    requires CallChain(reg, stack + [name]) && i < |stack| && stack[i] == name
    ensures Tells(reg, Recursion(stack[i..] + [name]))
  {
    var more, chain := stack + [name], stack[i..] + [name];
    assert forall j :: 0 <= j < |chain| ==> chain[j] == more[i + j];
    forall j | 0 <= j < |chain| - 1
      ensures (chain[j], chain[j + 1]) in CallGraph(reg)
    {
      assert (more[i + j], more[i + j + 1]) in CallGraph(reg);
    }
  }

  lemma {:induction false} BrokenTells(reg: Registry, name: string)
    requires ResolveAlias(reg, name).Broken?
    ensures Tells(reg, BrokenAlias(name)) && !Recordable(reg, name)
  {
    if Recordable(reg, name) {
      RecordableStep(reg, name);
    }
  }

  lemma {:induction false} UnknownTells(reg: Registry, name: string)
    requires name !in reg
    ensures Tells(reg, UnknownTask(name)) && !Recordable(reg, name)
  {
    if Recordable(reg, name) {
      RecordableStep(reg, name);
    }
  }

  lemma {:induction false} WhenFailsTells(reg: Registry, name: string)
    requires name in reg && reg[name].whenFails && reg[name].aliasOf == ""
    ensures Tells(reg, WhenFails(name)) && !Recordable(reg, name)
  {
    if Recordable(reg, name) {
      RecordableStep(reg, name);
    }
  }

  lemma {:induction false} AliasCalls(reg: Registry, name: string)
    requires name in reg && reg[name].aliasOf != "" && ResolveAlias(reg, name).Real?
    ensures (name, ResolveAlias(reg, name).name) in CallGraph(reg)
    ensures Recordable(reg, name) ==> Recordable(reg, ResolveAlias(reg, name).name)
  {
    assert reg[name].aliasOf in Calls(reg, name);
    if Recordable(reg, name) {
      RecordableStep(reg, name);
    }
  }

  /** A call and what it inherits. */
  lemma {:induction false} Called(reg: Registry, name: string, y: string)
    requires name in reg && y in Calls(reg, name)
    ensures (name, y) in CallGraph(reg) && (Recordable(reg, name) ==> Recordable(reg, y))
  {
    if Recordable(reg, name) {
      RecordableStep(reg, name);
    }
  }

  lemma {:induction false} NeedCalled(reg: Registry, name: string, k: nat)
    requires name in reg && reg[name].aliasOf == "" && k < |reg[name].needs|
    requires ResolveNeed(reg.Keys, reg[name].prefix, reg[name].needs[k]).Some?
    ensures var y := ResolveNeed(reg.Keys, reg[name].prefix, reg[name].needs[k]).value;
            (name, y) in CallGraph(reg) && (Recordable(reg, name) ==> Recordable(reg, y))
  {
    var y := ResolveNeed(reg.Keys, reg[name].prefix, reg[name].needs[k]).value;
    assert y in NeedNames(reg, name);
    hide ResolvedNeeds, NeedNames;
    assert y in Calls(reg, name);
    Called(reg, name, y);
  }

  lemma {:induction false} UnnamedTells(reg: Registry, name: string, k: nat)
    requires name in reg && reg[name].aliasOf == "" && k < |reg[name].needs|
    requires ResolveNeed(reg.Keys, reg[name].prefix, reg[name].needs[k]).None?
    ensures Tells(reg, UnknownNeed(name, reg[name].needs[k])) && !Recordable(reg, name)
  {
    if Recordable(reg, name) {
      RecordableStep(reg, name);
    }
  }

  /** names are what the first k needs resolve to. */
  ghost predicate NamesTo(reg: Registry, name: string, k: nat, names: seq<string>) {
    && name in reg && k <= |reg[name].needs| && |names| == k
    && names == ResolvedNeeds(reg.Keys, reg[name].prefix, reg[name].needs[..k])
    && forall j :: 0 <= j < k ==> ResolveNeed(reg.Keys, reg[name].prefix, reg[name].needs[j]).Some?
  }

  lemma {:induction false} NoNamesYet(reg: Registry, name: string)
    requires name in reg
    ensures NamesTo(reg, name, 0, [])
  {
  }

  lemma {:induction false} NamesNext(reg: Registry, name: string, k: nat, names: seq<string>)
    requires NamesTo(reg, name, k, names) && k < |reg[name].needs|
    requires ResolveNeed(reg.Keys, reg[name].prefix, reg[name].needs[k]).Some?
    ensures NamesTo(reg, name, k + 1, names + [ResolveNeed(reg.Keys, reg[name].prefix, reg[name].needs[k]).value])
  {
    assert reg[name].needs[..k + 1][..k] == reg[name].needs[..k];
  }

  lemma {:induction false} NamesAll(reg: Registry, name: string, names: seq<string>)
    requires name in reg && NamesTo(reg, name, |reg[name].needs|, names)
    ensures NeedsNamed(reg, name) && names == NeedNames(reg, name)
  {
    assert reg[name].needs[..|reg[name].needs|] == reg[name].needs;
  }

  lemma {:induction false} RecursionFails(reg: Registry, stack: seq<string>, name: string)
    requires CallChain(reg, stack + [name]) && name in stack
    ensures !Recordable(reg, name)
  {
    if Recordable(reg, name) {
      NotOnStack(reg, stack, name);
    }
  }

  lemma {:induction false} RecordIs(reg: Registry, env: Env, r: Record)
    requires r.task in reg && reg[r.task].aliasOf == "" && !reg[r.task].whenFails && NeedsNamed(reg, r.task)
    requires LegalSteps(reg, env, ByNeed, NeedNames(reg, r.task), r.needs)
    requires LegalBody(reg, After(env, ByNeed, r.needs), r.task, r.body)
    ensures LegalRecord(reg, env, r)
    ensures AfterRecord(env, r) == AfterBody(After(env, ByNeed, r.needs), r.body)
    ensures RecordOps(reg, r) == StepsOps(reg, r.needs) + Envelope(reg, r.task, BodyOps(reg, r.body))
  {
  }

  lemma {:induction false} RunCalled(reg: Registry, stack: seq<string>, name: string, k: nat)
    requires name in reg && reg[name].aliasOf == "" && !reg[name].aggregate && k < |reg[name].actions|
    requires reg[name].actions[k].RunList? && CallChain(reg, stack) && stack != [] && stack[|stack| - 1] == name
    ensures var names := reg[name].actions[k].names;
            forall j :: 0 <= j < |names| ==>
              CallChain(reg, stack + [names[j]]) && (Recordable(reg, name) ==> Recordable(reg, names[j]))
  {
    hide CallChain, Recordable;
    var names := reg[name].actions[k].names;
    forall j | 0 <= j < |names|
      ensures CallChain(reg, stack + [names[j]]) && (Recordable(reg, name) ==> Recordable(reg, names[j]))
    {
      assert names[j] in names;
      assert names[j] in RunNames(reg[name].actions);
      Called(reg, name, names[j]);
      ChainNext(reg, stack, names[j]);
    }
  }

  lemma {:induction false} MemberCalled(reg: Registry, stack: seq<string>, name: string, k: nat)
    requires name in reg && reg[name].aliasOf == "" && reg[name].aggregate && k < |MemberNames(reg, name)|
    requires CallChain(reg, stack) && stack != [] && stack[|stack| - 1] == name
    ensures var m := MemberNames(reg, name)[k];
            CallChain(reg, stack + [m]) && (Recordable(reg, name) ==> Recordable(reg, m))
  {
    hide CallChain, Recordable;
    var m := MemberNames(reg, name)[k];
    assert m in MemberNames(reg, name);
    hide MemberNames;
    Called(reg, name, m);
    ChainNext(reg, stack, m);
  }

  /** An aggregate without known or without any members is not recordable. */
  lemma {:induction false} MembersFail(reg: Registry, name: string)
    requires name in reg && reg[name].aliasOf == "" && reg[name].aggregate
    requires !MembersKnown(reg, name) || MemberNames(reg, name) == []
    ensures !Recordable(reg, name)
  {
    if Recordable(reg, name) {
      RecordableStep(reg, name);
    }
  }

  class Session {
    const reg: Registry
    var stack: seq<string>
    var seen: Option<set<string>>
    var scope: Option<NeedsScope>
    var cycleErr: Option<Error>
    var bodyErr: Option<Error>
    var elevate: bool
    var ops: seq<Op>

    /** The stashed errors tell the truth. */
    ghost predicate Valid()
      reads this
    {
      (cycleErr.Some? ==> Tells(reg, cycleErr.value)) && (bodyErr.Some? ==> Tells(reg, bodyErr.value))
    }

    predicate Failed()
      reads this
    {
      cycleErr.Some? || bodyErr.Some?
    }

    function Sets(): Env
      reads this
    {
      Env(seen, scope)
    }

    /** The tasks that can still be entered. */
    ghost function Free(): nat
      reads this
    {
      |set name | name in reg && name !in stack|
    }

    /** What every step leaves as it was, or only adds to. */
    twostate predicate Kept()
      reads this
    {
      && stack == old(stack) && elevate == old(elevate) && old(ops) <= ops && (old(Failed()) ==> Failed())
      && seen.Some? == old(seen.Some?)
    }

    constructor (reg: Registry)
      ensures Valid() && this.reg == reg && !Failed() && seen.None? && scope.None? && stack == [] && ops == []
    {
      this.reg := reg;
      stack, seen, scope, cycleErr, bodyErr, elevate, ops := [], None, None, None, None, false, [];
    }

    /** skipNeeded: a Needs earlier in the list already recorded it. */
    predicate SkipNeeded(name: string)
      reads this
    {
      scope.Some? && ResolveAlias(reg, name).Real? && ResolveAlias(reg, name).name in scope.value.viaNeeds
    }

    /** noteRecorded. */
    method NoteRecorded(name: string)
      modifies this`scope
      ensures ResolveAlias(reg, name).Real? ==> Sets() == Noted(old(Sets()), ByList, ResolveAlias(reg, name).name)
    {
      if scope.None? {
        return;
      }
      var target := ResolveAlias(reg, name);
      if target.Real? {
        scope := Some(scope.value.(recorded := scope.value.recorded + {target.name}));
      }
    }

    /** needRecorded: recorded in the aggregate tree or the list. */
    predicate NeedRecorded(target: string)
      reads this
    {
      (seen.Some? && target in seen.value) || (scope.Some? && target in scope.value.recorded)
    }

    /** noteNeedRecorded. */
    method NoteNeedRecorded(target: string)
      modifies this`scope, this`seen
      ensures Sets() == Noted(old(Sets()), ByNeed, target) && seen.Some? == old(seen.Some?)
    {
      if seen.Some? {
        seen := Some(seen.value + {target});
      }
      if scope.Some? {
        scope := Some(NeedsScope(scope.value.recorded + {target}, scope.value.viaNeeds + {target}));
      }
    }

    /** stashAggregateError, keeping the root cause only: the first one wins. */
    method StashBody(err: Error)
      requires Valid() && Tells(reg, err)
      modifies this`bodyErr
      ensures Valid() && Failed()
    {
      if bodyErr.None? {
        bodyErr := Some(err);
      }
    }

    /** propagateNestedRunError. */
    method PropagateNested(err: Error)
      requires Valid() && Tells(reg, err)
      modifies this`bodyErr
      ensures Valid() && Failed()
    {
      if cycleErr == Some(err) || bodyErr.Some? {
        return;
      }
      bodyErr := Some(err);
    }

    /** recordTaskBodies: one Run list, which is a Needs scope of its own.  It
        records the list as its rules ask for, and does so whenever every name
        is recordable. */
    method RecordTaskBodies(names: seq<string>) returns (err: Option<Error>, ghost steps: seq<Step>)
      requires Valid() && seen.None? && forall k :: 0 <= k < |names| ==> CallChain(reg, stack + [names[k]])
      modifies this
      decreases Free(), 10
      ensures Valid() && Kept() && Sets() == old(Sets()) && (err.Some? ==> Tells(reg, err.value))
      ensures err.None? ==> LegalSteps(reg, ListEnv(), ByList, names, steps) && ops == old(ops) + StepsOps(reg, steps)
      ensures err.None? && !old(Failed()) ==> !Failed()
      ensures (forall k :: 0 <= k < |names| ==> Recordable(reg, names[k])) && !old(Failed()) ==> err.None?
    {
      hide Tells, CallChain, Recordable, LegalSteps, LegalStep, LegalRecord, After, AfterStep, AfterRecord, StepsOps,
           StepOps, RecordOps, Noted;
      var saved := scope;
      scope := Some(NeedsScope({}, {}));
      err, steps := None, [];
      NoSteps(reg, ListEnv(), ByList);
      assert names[..0] == [];
      for k := 0 to |names|
        invariant Valid() && Kept() && seen.None? && err.None?
        invariant LegalSteps(reg, ListEnv(), ByList, names[..k], steps)
        invariant Sets() == After(ListEnv(), ByList, steps) && ops == old(ops) + StepsOps(reg, steps)
        invariant !old(Failed()) ==> !Failed()
      {
        ghost var env := Sets();
        if SkipNeeded(names[k]) {
          SkipStep(reg, env, ByList, names[k]);
          NextStep(reg, ListEnv(), ByList, names, k, steps, Skip);
          steps := steps + [Skip];
          continue;
        }
        ghost var r;
        err, r := RecordTaskName(names[k]);
        if err.Some? {
          scope := saved;
          return;
        }
        NoteRecorded(names[k]);
        TakeStep(reg, env, ByList, names[k], r);
        NextStep(reg, ListEnv(), ByList, names, k, steps, Take(r));
        steps := steps + [Take(r)];
      }
      assert names[..|names|] == names;
      scope := saved;
    }

    /** checkRecordingCycle: the chain from the entry of name back to it. */
    method CheckRecordingCycle(name: string) returns (chain: Option<seq<string>>)
      requires CallChain(reg, stack + [name])
      ensures chain.Some? <==> name in stack
      ensures chain.Some? ==> Tells(reg, Recursion(chain.value))
    {
      hide CallChain;
      for i := 0 to |stack|
        invariant name !in stack[..i]
      {
        if stack[i] == name {
          ClosedChain(reg, stack, name, i);
          return Some(stack[i..] + [name]);
        }
      }
      assert stack[..|stack|] == stack;
      chain := None;
    }

    /** recordTaskName: a name on the stack is a recursion; an alias records
        its target; a task records its needs, then its body. */
    method RecordTaskName(name: string) returns (err: Option<Error>, ghost r: Record)
      requires Valid() && CallChain(reg, stack + [name])
      modifies this
      decreases Free(), 9
      ensures Valid() && Kept() && (err.Some? ==> Tells(reg, err.value))
      ensures err.None? ==> !Failed() && ResolveAlias(reg, name) == Real(r.task) && LegalRecord(reg, old(Sets()), r)
      ensures err.None? ==> Sets() == AfterRecord(old(Sets()), r) && ops == old(ops) + RecordOps(reg, r)
      ensures Recordable(reg, name) && !old(Failed()) ==> err.None?
    {
      hide Tells, CallChain, Recordable, LegalSteps, LegalRecord, LegalBody, After, AfterRecord, AfterBody, StepsOps,
           RecordOps, BodyOps, Sound, CallGraph, NeedsNamed;
      r := Record(name, [], Plain([]));
      var chain := CheckRecordingCycle(name);
      if chain.Some? {
        err := Some(Recursion(chain.value));
        cycleErr := err;
        RecursionFails(reg, stack, name);
        return;
      }
      var target := ResolveAlias(reg, name);
      if target.Broken? {
        BrokenTells(reg, name);
        return Some(BrokenAlias(name)), r;
      }
      FewerNames(reg, stack, name);
      ghost var below := stack;
      stack := stack + [name];
      if name in reg && reg[name].aliasOf != "" {
        AliasCalls(reg, name);
        ChainNext(reg, stack, target.name);
        AliasOnce(reg, name);
        err, r := RecordTaskName(target.name);
      } else {
        ghost var needs, body, env := [], Plain([]), Sets();
        err, needs := RecordNeeds(name);
        if err.None? {
          err, body := RecordSingleTaskBody(name);
          r := Record(name, needs, body);
          if err.None? {
            RecordIs(reg, env, r);
          }
        }
      }
      assert stack[..|stack| - 1] == below;
      stack := stack[..|stack| - 1];
    }

    /** recordNeeds: the needs of name that its scope has not recorded yet. */
    method RecordNeeds(name: string) returns (err: Option<Error>, ghost steps: seq<Step>)
      requires Valid() && CallChain(reg, stack) && stack != [] && stack[|stack| - 1] == name
      requires name in reg ==> reg[name].aliasOf == ""
      modifies this
      decreases Free(), if name in reg then 20 else 1
      ensures Valid() && Kept() && (err.Some? ==> Tells(reg, err.value))
      ensures err.None? && name in reg ==> NeedsNamed(reg, name)
      ensures err.None? && name in reg ==> LegalSteps(reg, old(Sets()), ByNeed, NeedNames(reg, name), steps)
      ensures err.None? ==> Sets() == After(old(Sets()), ByNeed, steps) && ops == old(ops) + StepsOps(reg, steps)
      ensures err.None? && !old(Failed()) ==> !Failed()
      ensures Recordable(reg, name) && !old(Failed()) ==> err.None?
    {
      hide Tells, CallChain, Recordable, LegalSteps, LegalStep, LegalRecord, After, AfterStep, AfterRecord, StepsOps,
           StepOps, RecordOps, Noted, Sound, CallGraph, ResolvedNeeds;
      err, steps := None, [];
      NoSteps(reg, Sets(), ByNeed);
      if name !in reg || |reg[name].needs| == 0 {
        if name in reg {
          NoNamesYet(reg, name);
          NamesAll(reg, name, []);
        }
        return;
      }
      var t := reg[name];
      ghost var env, names := Sets(), [];
      NoNamesYet(reg, name);
      for k := 0 to |t.needs|
        invariant Valid() && Kept() && err.None?
        invariant NamesTo(reg, name, k, names) && LegalSteps(reg, env, ByNeed, names, steps)
        invariant Sets() == After(env, ByNeed, steps) && ops == old(ops) + StepsOps(reg, steps)
        invariant !old(Failed()) ==> !Failed()
      {
        var need := ResolveNeed(reg.Keys, t.prefix, t.needs[k]);
        if need.None? {
          UnnamedTells(reg, name, k);
          return Some(UnknownNeed(name, t.needs[k])), steps;
        }
        NeedCalled(reg, name, k);
        ChainNext(reg, stack, need.value);
        ghost var more := names + [need.value];
        NamesNext(reg, name, k, names);
        var target := ResolveAlias(reg, need.value);
        if target.Broken? {
          BrokenTells(reg, need.value);
          return Some(BrokenAlias(need.value)), steps;
        }
        ghost var now := Sets();
        if NeedRecorded(target.name) {
          SkipStep(reg, now, ByNeed, need.value);
          NextNamed(reg, env, ByNeed, names, need.value, steps, Skip);
          steps, names := steps + [Skip], more;
          continue;
        }
        ghost var r;
        err, r := RecordTaskName(need.value);
        if err.Some? {
          return;
        }
        NoteNeedRecorded(target.name);
        TakeStep(reg, now, ByNeed, need.value, r);
        NextNamed(reg, env, ByNeed, names, need.value, steps, Take(r));
        steps, names := steps + [Take(r)], more;
      }
      NamesAll(reg, name, names);
    }

    /** recordSingleTaskBody: the body inside its when-block, if it has a guard. */
    method RecordSingleTaskBody(name: string) returns (err: Option<Error>, ghost body: Body)
      requires Valid() && CallChain(reg, stack) && stack != [] && stack[|stack| - 1] == name
      requires name in reg ==> reg[name].aliasOf == ""
      modifies this
      decreases Free(), if name in reg then 20 else 1
      ensures Valid() && Kept() && (err.Some? ==> Tells(reg, err.value))
      ensures err.None? ==> !Failed() && name in reg && !reg[name].whenFails && LegalBody(reg, old(Sets()), name, body)
      ensures err.None? ==>
                Sets() == AfterBody(old(Sets()), body) && ops == old(ops) + Envelope(reg, name, BodyOps(reg, body))
      ensures Recordable(reg, name) && !old(Failed()) ==> err.None?
    {
      hide Tells, CallChain, Recordable, LegalBody, AfterBody, BodyOps, CallGraph, Sound;
      body := Plain([]);
      if name !in reg {
        UnknownTells(reg, name);
        return Some(UnknownTask(name)), body;
      }
      if reg[name].whenFails {
        WhenFailsTells(reg, name);
        return Some(WhenFails(name)), body;
      }
      var wasElevate := elevate;
      elevate := reg[name].privileged;
      var guard := reg[name].guard;
      if |guard| > 0 {
        ops := ops + [ControlOp(KindWhenBegin, "when." + name, guard, elevate)];
      }
      err, body := RunTaskBody(name);
      if err.None? && |guard| > 0 {
        ops := ops + [ControlOp(KindWhenEnd, "", [], elevate)];
      }
      elevate := wasElevate;
    }

    /** runTaskBody: the body in the scope that fits it, then the stashes. */
    method RunTaskBody(name: string) returns (err: Option<Error>, ghost body: Body)
      requires Valid() && CallChain(reg, stack) && stack != [] && stack[|stack| - 1] == name
      requires name in reg && reg[name].aliasOf == ""
      modifies this
      decreases Free(), 15
      ensures Valid() && Kept() && (err.Some? ==> Tells(reg, err.value))
      ensures err.None? ==> !Failed() && LegalBody(reg, old(Sets()), name, body)
      ensures err.None? ==> Sets() == AfterBody(old(Sets()), body) && ops == old(ops) + BodyOps(reg, body)
      ensures Recordable(reg, name) && !old(Failed()) ==> err.None?
    {
      hide Tells, CallChain, Recordable, LegalSteps, LegalParts, After, StepsOps, PartsOps, CallGraph,
           MemberNames, MembersKnown;
      if reg[name].aggregate {
        ghost var members := RunAggregate(name);
        body := Members(members);
      } else {
        ghost var parts := RunActions(name);
        body := Plain(parts);
      }
      if cycleErr.Some? {
        return cycleErr, body;
      }
      return bodyErr, body;
    }

    /** One statement of a plain body. */
    method RunAction(action: Action) returns (ghost part: Part)
      requires Valid() && seen.None?
      requires action.RunList? ==> forall k :: 0 <= k < |action.names| ==> CallChain(reg, stack + [action.names[k]])
      modifies this
      decreases Free(), 13
      ensures Valid() && Kept() && Sets() == old(Sets())
      ensures !Failed() ==> LegalPart(reg, action, part) && ops == old(ops) + PartOps(reg, part)
      ensures (action.RunList? ==> forall k :: 0 <= k < |action.names| ==> Recordable(reg, action.names[k])) ==>
                !old(Failed()) ==> !Failed()
    {
      hide Tells, CallChain, Recordable, LegalSteps, StepsOps;
      match action {
        case Emit(more) =>
          ops := ops + more;
          part := Emitted(more);
        case RunList(names) =>
          var err;
          ghost var steps;
          err, steps := RecordTaskBodies(names);
          part := Ran(steps);
          if err.Some? {
            PropagateNested(err.value);
          }
      }
    }

    /** A plain body: it has no aggregate tree and no Needs scope of its own,
        and goes on after a nested Run that failed. */
    method RunActions(name: string) returns (ghost parts: seq<Part>)
      requires Valid() && CallChain(reg, stack) && stack != [] && stack[|stack| - 1] == name
      requires name in reg && reg[name].aliasOf == "" && !reg[name].aggregate
      modifies this
      decreases Free(), 14
      ensures Valid() && Kept() && Sets() == old(Sets())
      ensures !Failed() ==> LegalParts(reg, reg[name].actions, parts) && ops == old(ops) + PartsOps(reg, parts)
      ensures Recordable(reg, name) && !old(Failed()) ==> !Failed()
    {
      hide Tells, CallChain, Recordable, LegalParts, LegalPart, PartsOps, PartOps, CallGraph, RunNames;
      var savedSeen, savedScope := seen, scope;
      seen, scope := None, None;
      var actions := reg[name].actions;
      parts := [];
      NoParts(reg);
      assert actions[..0] == [];
      for k := 0 to |actions|
        invariant Valid() && stack == old(stack) && elevate == old(elevate) && seen.None?
        invariant old(ops) <= ops && (old(Failed()) ==> Failed())
        invariant !Failed() ==> LegalParts(reg, actions[..k], parts) && ops == old(ops) + PartsOps(reg, parts)
        invariant Recordable(reg, name) && !old(Failed()) ==> !Failed()
      {
        if actions[k].RunList? {
          RunCalled(reg, stack, name, k);
        }
        ghost var part := RunAction(actions[k]);
        if !Failed() {
          NextPart(reg, actions, k, parts, part);
        }
        parts := parts + [part];
      }
      assert actions[..|actions|] == actions;
      seen, scope := savedSeen, savedScope;
    }

    /** An aggregate's body keeps the enclosing scope. */
    method RunAggregate(name: string) returns (ghost steps: seq<Step>)
      requires Valid() && CallChain(reg, stack) && stack != [] && stack[|stack| - 1] == name
      requires name in reg && reg[name].aliasOf == "" && reg[name].aggregate
      modifies this
      decreases Free(), 14
      ensures Valid() && Kept()
      ensures !Failed() ==> MembersKnown(reg, name) && MemberNames(reg, name) != []
      ensures !Failed() ==> LegalSteps(reg, TreeEnv(old(Sets())), ByMember, MemberNames(reg, name), steps)
      ensures !Failed() ==> Sets() == LeaveTree(old(Sets()), After(TreeEnv(old(Sets())), ByMember, steps))
      ensures !Failed() ==> ops == old(ops) + StepsOps(reg, steps)
      ensures Recordable(reg, name) && !old(Failed()) ==> !Failed()
    {
      hide Tells, CallChain, Recordable, LegalSteps, After, StepsOps, CallGraph;
      var names;
      steps := [];
      if reg[name].pattern {
        names := PatternMembers(reg, name, reg[name].matched);
      } else {
        var active := ActiveMembers(reg, name);
        if active.Unknown? {
          MembersFail(reg, name);
          StashBody(active.error);
          return;
        }
        names := active.names;
      }
      steps := RecordAggregate(name, names);
    }

    /** recordAggregate: the members in order, each target once in the tree. */
    method RecordAggregate(name: string, names: seq<string>) returns (ghost steps: seq<Step>)
      requires Valid() && CallChain(reg, stack) && stack != [] && stack[|stack| - 1] == name
      requires name in reg && reg[name].aliasOf == "" && reg[name].aggregate && names == MemberNames(reg, name)
      modifies this
      decreases Free(), 13
      ensures Valid() && Kept()
      ensures !Failed() ==> names != [] && LegalSteps(reg, TreeEnv(old(Sets())), ByMember, names, steps)
      ensures !Failed() ==> Sets() == LeaveTree(old(Sets()), After(TreeEnv(old(Sets())), ByMember, steps))
      ensures !Failed() ==> ops == old(ops) + StepsOps(reg, steps)
      ensures Recordable(reg, name) && !old(Failed()) ==> !Failed()
    {
      hide CallChain, Recordable, LegalSteps, After, StepsOps, CallGraph;
      steps := [];
      if |names| == 0 {
        MembersFail(reg, name);
        StashBody(NoMembers(name));
        return;
      }
      hide Tells;
      var first := seen.None?;
      if first {
        seen := Some({});
      }
      steps := RecordMembers(name, names);
      if first {
        seen := None;
      }
    }

    /** The member loop of recordAggregate. */
    method RecordMembers(name: string, names: seq<string>) returns (ghost steps: seq<Step>)
      requires Valid() && CallChain(reg, stack) && stack != [] && stack[|stack| - 1] == name && seen.Some?
      requires name in reg && reg[name].aliasOf == "" && reg[name].aggregate && names == MemberNames(reg, name)
      modifies this
      decreases Free(), 12
      ensures Valid() && Kept()
      ensures !Failed() ==> LegalSteps(reg, old(Sets()), ByMember, names, steps)
      ensures !Failed() ==> Sets() == After(old(Sets()), ByMember, steps) && ops == old(ops) + StepsOps(reg, steps)
      ensures Recordable(reg, name) && !old(Failed()) ==> !Failed()
    {
      hide Tells, CallChain, Recordable, LegalSteps, LegalStep, LegalRecord, After, AfterStep, AfterRecord, StepsOps,
           StepOps, RecordOps, CallGraph, MemberNames;
      ghost var env := Sets();
      steps := [];
      NoSteps(reg, env, ByMember);
      assert names[..0] == [];
      for k := 0 to |names|
        invariant Valid() && Kept() && seen.Some?
        invariant LegalSteps(reg, env, ByMember, names[..k], steps)
        invariant Sets() == After(env, ByMember, steps) && ops == old(ops) + StepsOps(reg, steps)
        invariant !old(Failed()) ==> !Failed()
      {
        ghost var now := Sets();
        MemberCalled(reg, stack, name, k);
        var target := ResolveAlias(reg, names[k]);
        if target.Broken? {
          BrokenTells(reg, names[k]);
          StashBody(BrokenAlias(names[k]));
          return;
        }
        if target.name in seen.value {
          SkipStep(reg, now, ByMember, names[k]);
          NextStep(reg, env, ByMember, names, k, steps, Skip);
          steps := steps + [Skip];
          continue;
        }
        var err;
        ghost var r;
        err, r := RecordTaskName(names[k]);
        if err.Some? {
          StashBody(err.value);
          return;
        }
        seen := Some(seen.value + {target.name});
        AliasOnce(reg, names[k]);
        NoteRecorded(target.name);
        TakeStep(reg, now, ByMember, names[k], r);
        NextStep(reg, env, ByMember, names, k, steps, Take(r));
        steps := steps + [Take(r)];
      }
      assert names[..|names|] == names;
    }
  }
}
