/** What recording a task list means, independent of the session that does it:
    which bodies are recorded in which order, what each adds to the plan, when
    a name is skipped, and when recording succeeds at all. */
module Records {
  import opened Walks
  import opened Ops
  import opened Tasks

  /** needsScope. */
  datatype NeedsScope = NeedsScope(recorded: set<string>, viaNeeds: set<string>)

  /** The dedupe sets in force: the aggregate tree's and the Run list's. */
  datatype Env = Env(seen: Option<set<string>>, scope: Option<NeedsScope>)

  datatype Resolved = Real(name: string) | Broken

  /** resolveAlias: exactly one level; an unknown name stands for itself. */
  function ResolveAlias(reg: Registry, name: string): Resolved {
    if name !in reg || reg[name].aliasOf == "" then Real(name)
    else if reg[name].aliasOf !in reg || reg[reg[name].aliasOf].aliasOf != "" then Broken
    else Real(reg[name].aliasOf)
  }

  lemma {:induction false} AliasOnce(reg: Registry, name: string)
    requires ResolveAlias(reg, name).Real?
    ensures ResolveAlias(reg, ResolveAlias(reg, name).name) == ResolveAlias(reg, name)
  {
  }

  /** One recorded task: its needs first, then its body, which is either the
      statements of a plain body or the members of an aggregate. */
  datatype Record = Record(task: string, needs: seq<Step>, body: Body)
  datatype Body = Plain(parts: seq<Part>) | Members(members: seq<Step>)
  datatype Part = Emitted(ops: seq<Op>) | Ran(steps: seq<Step>)

  /** What happens to one name: it is recorded, or it already was. */
  datatype Step = Skip | Take(record: Record)

  /** Why a name is recorded: a Needs, an aggregate's member, a Run list. */
  datatype Mode = ByNeed | ByMember | ByList

  function AddSeen(seen: Option<set<string>>, task: string): Option<set<string>> {
    match seen
    case None => None
    case Some(s) => Some(s + {task})
  }

  /** The dedupe sets once task was recorded. */
  function Noted(env: Env, mode: Mode, task: string): Env {
    var seen := if mode == ByList then env.seen else AddSeen(env.seen, task);
    match env.scope
    case None => Env(seen, None)
    case Some(s) =>
      Env(seen, Some(NeedsScope(s.recorded + {task}, if mode == ByNeed then s.viaNeeds + {task} else s.viaNeeds)))
  }

  /** Whether a task recorded for this reason is skipped: a need recorded in
      the tree or the list, a member recorded in the tree, a listed name that a
      Needs recorded in the list. */
  predicate Skips(env: Env, mode: Mode, task: string) {
    match mode
    case ByNeed => (env.seen.Some? && task in env.seen.value) || (env.scope.Some? && task in env.scope.value.recorded)
    case ByMember => env.seen.Some? && task in env.seen.value
    case ByList => env.scope.Some? && task in env.scope.value.viaNeeds
  }

  /** The sets of a new Run list. */
  function ListEnv(): Env {
    Env(None, Some(NeedsScope({}, {})))
  }

  /** The sets an aggregate's members start with: the tree's if there is one. */
  function TreeEnv(env: Env): Env {
    if env.seen.None? then env.(seen := Some({})) else env
  }

  /** The sets after an aggregate's members: a tree ends where it began. */
  function LeaveTree(env: Env, inner: Env): Env {
    if env.seen.None? then inner.(seen := None) else inner
  }

  /** The sets after a recorded task.  What a plain body records has sets of
      its own and leaves these alone. */
  function AfterRecord(env: Env, r: Record): Env
    decreases r
  {
    AfterBody(After(env, ByNeed, r.needs), r.body)
  }

  function AfterBody(env: Env, body: Body): Env
    decreases body
  {
    match body
    case Plain(_) => env
    case Members(members) => LeaveTree(env, After(TreeEnv(env), ByMember, members))
  }

  function After(env: Env, mode: Mode, steps: seq<Step>): Env
    decreases steps
  {
    if steps == [] then env
    else
      AfterStep(After(env, mode, steps[..|steps| - 1]), mode, steps[|steps| - 1])
  }

  function AfterStep(env: Env, mode: Mode, step: Step): Env
    decreases step
  {
    match step
    case Skip => env
    case Take(r) => Noted(AfterRecord(env, r), mode, r.task)
  }

  function ControlOp(kind: Kind, id: string, guard: seq<Predicate>, elevate: bool): Op {
    Op(kind, id, elevate, [], false, [], guard, "", false, None, [])
  }

  /** A guarded body sits in its own when-block. */
  function Envelope(reg: Registry, task: string, inner: seq<Op>): seq<Op> {
    if task in reg && reg[task].guard != [] then
      [ControlOp(KindWhenBegin, "when." + task, reg[task].guard, reg[task].privileged)] + inner +
      [ControlOp(KindWhenEnd, "", [], reg[task].privileged)]
    else inner
  }

  /** The ops a record adds to the plan. */
  function RecordOps(reg: Registry, r: Record): seq<Op>
    decreases r
  {
    StepsOps(reg, r.needs) + Envelope(reg, r.task, BodyOps(reg, r.body))
  }

  function BodyOps(reg: Registry, body: Body): seq<Op>
    decreases body
  {
    match body
    case Plain(parts) => PartsOps(reg, parts)
    case Members(members) => StepsOps(reg, members)
  }

  function PartsOps(reg: Registry, parts: seq<Part>): seq<Op>
    decreases parts
  {
    if parts == [] then []
    else PartsOps(reg, parts[..|parts| - 1]) + PartOps(reg, parts[|parts| - 1])
  }

  function PartOps(reg: Registry, part: Part): seq<Op>
    decreases part
  {
    match part
    case Emitted(ops) => ops
    case Ran(steps) => StepsOps(reg, steps)
  }

  function StepsOps(reg: Registry, steps: seq<Step>): seq<Op>
    decreases steps
  {
    if steps == [] then []
    else StepsOps(reg, steps[..|steps| - 1]) + StepOps(reg, steps[|steps| - 1])
  }

  function StepOps(reg: Registry, step: Step): seq<Op>
    decreases step
  {
    match step
    case Skip => []
    case Take(r) => RecordOps(reg, r)
  }

  /** Every need names something. */
  predicate NeedsNamed(reg: Registry, task: string)
    requires task in reg
  {
    forall k :: 0 <= k < |reg[task].needs| ==> ResolveNeed(reg.Keys, reg[task].prefix, reg[task].needs[k]).Some?
  }

  function NeedNames(reg: Registry, task: string): seq<string>
    requires task in reg
  {
    ResolvedNeeds(reg.Keys, reg[task].prefix, reg[task].needs)
  }

  /** What NeedNames holds: for each need in declaration order the prefixed
      task if there is one, else the plain one. */
  lemma {:induction false} NeedNamesMean(reg: Registry, task: string)
    requires task in reg && NeedsNamed(reg, task)
    ensures NamesInOrder(reg.Keys, reg[task].prefix, reg[task].needs, NeedNames(reg, task))
    ensures forall k :: 0 <= k < |NeedNames(reg, task)| ==> NeedNames(reg, task)[k] in reg
  {
    var names := NeedNames(reg, task);
    NeedsResolve(reg.Keys, reg[task].prefix, reg[task].needs);
    forall k | 0 <= k < |names|
      ensures names[k] in reg
    {
      assert names[k] in names;
    }
  }

  /** out is what chosen takes of list, in list order: at says where each entry
      comes from. */
  ghost predicate TakenInOrder(list: seq<string>, out: seq<string>, at: seq<nat>, chosen: string -> bool) {
    && |at| == |out| && (forall i, j :: 0 <= i < j < |at| ==> at[i] < at[j])
    && (forall i :: 0 <= i < |at| ==> at[i] < |list| && out[i] == list[at[i]])
    && (forall k: nat :: k in at <==> k < |list| && chosen(list[k]))
  }

  lemma {:induction false} TakenNext(list: seq<string>, last: string, out: seq<string>, at: seq<nat>,
                                     chosen: string -> bool)
    requires TakenInOrder(list, out, at, chosen)
    ensures chosen(last) ==> TakenInOrder(list + [last], out + [last], at + [|list|], chosen)
    ensures !chosen(last) ==> TakenInOrder(list + [last], out, at, chosen)
  {
  }

  /** The active members are the listed ones that are registered and active,
      each where it is listed. */
  lemma {:induction false} ActiveInOrder(reg: Registry, members: seq<string>) returns (at: seq<nat>)
    ensures TakenInOrder(members, ActiveNames(reg, members), at, m => m in reg && !reg[m].inactive)
  {
    var chosen := m => m in reg && !reg[m].inactive;
    at := [];
    if members != [] {
      var n := |members| - 1;
      at := ActiveInOrder(reg, members[..n]);
      TakenNext(members[..n], members[n], ActiveNames(reg, members[..n]), at, chosen);
      assert members == members[..n] + [members[n]];
      if chosen(members[n]) {
        at := at + [n];
      }
    }
  }

  /** A pattern aggregate's members are the matched tasks that qualify, in
      matched order. */
  lemma {:induction false} QualifiedInOrder(reg: Registry, name: string, matched: seq<string>) returns (at: seq<nat>)
    ensures TakenInOrder(matched, QualifiedNames(reg, name, matched), at, m => Qualifies(reg, name, m))
  {
    hide Qualifies;
    var chosen := m => Qualifies(reg, name, m);
    at := [];
    if matched != [] {
      var n := |matched| - 1;
      at := QualifiedInOrder(reg, name, matched[..n]);
      TakenNext(matched[..n], matched[n], QualifiedNames(reg, name, matched[..n]), at, chosen);
      assert matched == matched[..n] + [matched[n]];
      if chosen(matched[n]) {
        at := at + [n];
      }
    }
  }

  /** activeMembers: the listed members that are active, in list order. */
  function ActiveNames(reg: Registry, members: seq<string>): (names: seq<string>)
    ensures forall m :: m in names <==> m in members && m in reg && !reg[m].inactive
  {
    if members == [] then []
    else
      var rest, last := ActiveNames(reg, members[..|members| - 1]), members[|members| - 1];
      assert forall m :: m in members <==> m in members[..|members| - 1] || m == last;
      if last in reg && !reg[last].inactive then rest + [last] else rest
  }

  /** Whether a pattern aggregate takes a matched task: an active one that is
      neither the aggregate, nor an alias of it, nor operational work. */
  ghost predicate Qualifies(reg: Registry, name: string, m: string) {
    m != name && m in reg && reg[m].aliasOf != name && !reg[m].inactive && !LeadsToOperational(reg, m)
  }

  ghost function QualifiedNames(reg: Registry, name: string, matched: seq<string>): (names: seq<string>)
    ensures forall m :: m in names <==> m in matched && Qualifies(reg, name, m)
  {
    if matched == [] then []
    else
      var rest, last := QualifiedNames(reg, name, matched[..|matched| - 1]), matched[|matched| - 1];
      assert forall m :: m in matched <==> m in matched[..|matched| - 1] || m == last;
      if Qualifies(reg, name, last) then rest + [last] else rest
  }

  ghost function MemberNames(reg: Registry, task: string): seq<string>
    requires task in reg
  {
    if reg[task].pattern then QualifiedNames(reg, task, reg[task].matched) else ActiveNames(reg, Listed(reg[task]))
  }

  /** A listed member is registered and no broken alias, active or not. */
  predicate MembersKnown(reg: Registry, task: string)
    requires task in reg
  {
    forall k :: 0 <= k < |Listed(reg[task])| ==>
      Listed(reg[task])[k] in reg && ResolveAlias(reg, Listed(reg[task])[k]).Real?
  }

  /** The record of one name is what its reason and the sets ask for. */
  ghost predicate LegalStep(reg: Registry, env: Env, mode: Mode, name: string, step: Step)
    decreases step
  {
    && ResolveAlias(reg, name).Real?
    && if Skips(env, mode, ResolveAlias(reg, name).name) then step.Skip?
       else step.Take? && step.record.task == ResolveAlias(reg, name).name && LegalRecord(reg, env, step.record)
  }

  /** The names one after the other, each with the sets the ones before left. */
  ghost predicate LegalSteps(reg: Registry, env: Env, mode: Mode, names: seq<string>, steps: seq<Step>)
    decreases steps
  {
    && |steps| == |names|
    && (steps == [] || (
          var rest := steps[..|steps| - 1];
          && LegalSteps(reg, env, mode, names[..|names| - 1], rest)
          && LegalStep(reg, After(env, mode, rest), mode, names[|names| - 1], steps[|steps| - 1])))
  }

  /** A task recorded with the sets env: first the needs it still lacks, then
      its body. */
  ghost predicate LegalRecord(reg: Registry, env: Env, r: Record)
    decreases r
  {
    && r.task in reg && reg[r.task].aliasOf == "" && !reg[r.task].whenFails && NeedsNamed(reg, r.task)
    && LegalSteps(reg, env, ByNeed, NeedNames(reg, r.task), r.needs)
    && LegalBody(reg, After(env, ByNeed, r.needs), r.task, r.body)
  }

  /** An aggregate records its members; a plain body does exactly its
      statements, each nested Run list with sets of its own. */
  ghost predicate LegalBody(reg: Registry, env: Env, task: string, body: Body)
    requires task in reg
    decreases body
  {
    match body
    case Members(members) =>
      && reg[task].aggregate && MembersKnown(reg, task) && MemberNames(reg, task) != []
      && LegalSteps(reg, TreeEnv(env), ByMember, MemberNames(reg, task), members)
    case Plain(parts) => !reg[task].aggregate && LegalParts(reg, reg[task].actions, parts)
  }

  ghost predicate LegalParts(reg: Registry, actions: seq<Action>, parts: seq<Part>)
    decreases parts
  {
    && |parts| == |actions|
    && (parts == [] || (
          && LegalParts(reg, actions[..|actions| - 1], parts[..|parts| - 1])
          && LegalPart(reg, actions[|actions| - 1], parts[|parts| - 1])))
  }

  ghost predicate LegalPart(reg: Registry, action: Action, part: Part)
    decreases part
  {
    match action
    case Emit(ops) => part == Emitted(ops)
    case RunList(names) => part.Ran? && LegalSteps(reg, ListEnv(), ByList, names, part.steps)
  }

  /** The names the nested Run lists of a body give. */
  function RunNames(actions: seq<Action>): (names: seq<string>)
    ensures forall n :: n in names <==>
              exists k :: 0 <= k < |actions| && actions[k].RunList? && n in actions[k].names
  {
    if actions == [] then []
    else
      var rest, last := RunNames(actions[..|actions| - 1]), actions[|actions| - 1];
      assert forall k :: 0 <= k < |actions| - 1 ==> actions[..|actions| - 1][k] == actions[k];
      match last
      case Emit(_) => rest
      case RunList(names) => rest + names
  }

  /** What recording a task calls for: an alias its target, a task its needs
      and its body's members or nested names. */
  ghost function Calls(reg: Registry, x: string): seq<string>
    requires x in reg
  {
    if reg[x].aliasOf != "" then [reg[x].aliasOf]
    else NeedNames(reg, x) + (if reg[x].aggregate then MemberNames(reg, x) else RunNames(reg[x].actions))
  }

  ghost function CallGraph(reg: Registry): Names {
    set x, y | x in reg && y in Calls(reg, x) :: (x, y)
  }

  /** Nothing is wrong with x itself. */
  ghost predicate Sound(reg: Registry, x: string) {
    && x in reg && ResolveAlias(reg, x).Real?
    && (reg[x].aliasOf == "" ==>
          && !reg[x].whenFails && NeedsNamed(reg, x)
          && (reg[x].aggregate ==> MembersKnown(reg, x) && MemberNames(reg, x) != []))
  }

  /** Everything recording x can call for is sound, and none of it leads back
      to itself. */
  ghost predicate Recordable(reg: Registry, x: string) {
    && (forall y :: Reach(CallGraph(reg), x, y) ==> Sound(reg, y))
    && (forall y, z :: (y, z) in CallGraph(reg) && Reach(CallGraph(reg), x, y) ==> !Reach(CallGraph(reg), z, y))
  }

  lemma {:induction false} RecordableStep(reg: Registry, x: string)
    requires Recordable(reg, x)
    ensures Sound(reg, x) && forall y :: (x, y) in CallGraph(reg) ==> Recordable(reg, y)
  {
    var e := CallGraph(reg);
    ReachRefl(e, x);
    hide CallGraph, Sound;
    forall y | (x, y) in e
      ensures Recordable(reg, y)
    {
      forall z | Reach(e, y, z)
        ensures Reach(e, x, z)
      {
        EdgeThenReach(e, x, y, z);
      }
    }
  }

  /** A sound task all of whose calls are recordable is recordable. */
  lemma {:induction false} RecordableBuild(reg: Registry, x: string)
    requires Sound(reg, x) && forall y :: (x, y) in CallGraph(reg) ==> Recordable(reg, y)
    ensures Recordable(reg, x)
  {
    var e := CallGraph(reg);
    hide CallGraph, Sound;
    forall y | Reach(e, x, y)
      ensures Sound(reg, y)
    {
      if y != x {
        var w := ReachFirst(e, x, y);
        assert Recordable(reg, w);
      }
    }
    forall y, z | (y, z) in e && Reach(e, x, y)
      ensures !Reach(e, z, y)
    {
      NoWayBack(reg, x, y, z);
    }
  }

  lemma {:induction false} NoWayBack(reg: Registry, x: string, y: string, z: string)
    requires (y, z) in CallGraph(reg) && Reach(CallGraph(reg), x, y)
    requires forall w :: (x, w) in CallGraph(reg) ==> Recordable(reg, w)
    ensures !Reach(CallGraph(reg), z, y)
  {
    var e := CallGraph(reg);
    hide CallGraph, Sound;
    if y != x {
      var w := ReachFirst(e, x, y);
      assert Recordable(reg, w);
    } else {
      assert Recordable(reg, z);
    }
  }

  /** A recordable task calls nothing that leads back to it. */
  lemma {:induction false} NotItself(reg: Registry, x: string, y: string)
    requires Recordable(reg, x) && (x, y) in CallGraph(reg)
    ensures !Reach(CallGraph(reg), y, x)
  {
    ReachRefl(CallGraph(reg), x);
  }

  /** The steps one further. */
  lemma {:induction false} NextStep(reg: Registry, env: Env, mode: Mode, names: seq<string>, k: nat, steps: seq<Step>,
                                    step: Step)
    requires k < |names| && LegalSteps(reg, env, mode, names[..k], steps)
    requires LegalStep(reg, After(env, mode, steps), mode, names[k], step)
    ensures LegalSteps(reg, env, mode, names[..k + 1], steps + [step])
    ensures After(env, mode, steps + [step]) == AfterStep(After(env, mode, steps), mode, step)
    ensures StepsOps(reg, steps + [step]) == StepsOps(reg, steps) + StepOps(reg, step)
  {
    hide LegalStep;
    var more := steps + [step];
    assert more[..|more| - 1] == steps && names[..k + 1][..k] == names[..k];
  }

  lemma {:induction false} NextNamed(reg: Registry, env: Env, mode: Mode, names: seq<string>, name: string,
                                     steps: seq<Step>, step: Step)
    requires LegalSteps(reg, env, mode, names, steps) && LegalStep(reg, After(env, mode, steps), mode, name, step)
    ensures LegalSteps(reg, env, mode, names + [name], steps + [step])
    ensures After(env, mode, steps + [step]) == AfterStep(After(env, mode, steps), mode, step)
    ensures StepsOps(reg, steps + [step]) == StepsOps(reg, steps) + StepOps(reg, step)
  {
    hide LegalStep;
    var more, all := steps + [step], names + [name];
    assert more[..|more| - 1] == steps && all[..|all| - 1] == names;
  }

  lemma {:induction false} NoSteps(reg: Registry, env: Env, mode: Mode)
    ensures LegalSteps(reg, env, mode, [], []) && After(env, mode, []) == env && StepsOps(reg, []) == []
  {
  }

  lemma {:induction false} TakeStep(reg: Registry, env: Env, mode: Mode, name: string, r: Record)
    requires ResolveAlias(reg, name) == Real(r.task) && !Skips(env, mode, r.task) && LegalRecord(reg, env, r)
    ensures LegalStep(reg, env, mode, name, Take(r))
    ensures AfterStep(env, mode, Take(r)) == Noted(AfterRecord(env, r), mode, r.task)
    ensures StepOps(reg, Take(r)) == RecordOps(reg, r)
  {
  }

  lemma {:induction false} SkipStep(reg: Registry, env: Env, mode: Mode, name: string)
    requires ResolveAlias(reg, name).Real? && Skips(env, mode, ResolveAlias(reg, name).name)
    ensures LegalStep(reg, env, mode, name, Skip)
    ensures AfterStep(env, mode, Skip) == env && StepOps(reg, Skip) == []
  {
  }

  /** The parts one further. */
  lemma {:induction false} NextPart(reg: Registry, actions: seq<Action>, k: nat, parts: seq<Part>, part: Part)
    requires k < |actions| && LegalParts(reg, actions[..k], parts) && LegalPart(reg, actions[k], part)
    ensures LegalParts(reg, actions[..k + 1], parts + [part])
    ensures PartsOps(reg, parts + [part]) == PartsOps(reg, parts) + PartOps(reg, part)
  {
    hide LegalPart;
    var more := parts + [part];
    assert more[..|more| - 1] == parts && actions[..k + 1][..k] == actions[..k];
  }

  lemma {:induction false} NoParts(reg: Registry)
    ensures LegalParts(reg, [], []) && PartsOps(reg, []) == []
  {
  }
}
