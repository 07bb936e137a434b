/** Every Run list of a recorded plan, nested ones at any depth included: each
    lies in one piece in the plan and keeps the discipline of a list. */
module RecordLists {
  import opened Ops
  import opened Blocks
  import opened Tasks
  import opened Records
  import opened RecordLaws
  import opened RecordSpans

  /** A Run list whose record begins at line at of the plan. */
  datatype Listing = Listing(names: seq<string>, steps: seq<Step>, at: nat)

  /** The Run lists the bodies of some steps give, when the first line the
      steps add is at. */
  function StepsLists(reg: Registry, steps: seq<Step>, at: nat): seq<Listing>
    decreases steps
  {
    if steps == [] then []
    else
      var rest := steps[..|steps| - 1];
      StepsLists(reg, rest, at) + StepLists(reg, steps[|steps| - 1], at + |StepsOps(reg, rest)|)
  }

  function StepLists(reg: Registry, step: Step, at: nat): seq<Listing>
    decreases step
  {
    match step
    case Skip => []
    case Take(r) => RecordLists(reg, r, at)
  }

  function RecordLists(reg: Registry, r: Record, at: nat): seq<Listing>
    decreases r
  {
    StepsLists(reg, r.needs, at) +
    BodyLists(reg, r.task, r.body, at + |StepsOps(reg, r.needs)| + Lead(reg, r.task))
  }

  function BodyLists(reg: Registry, task: string, body: Body, at: nat): seq<Listing>
    decreases body
  {
    match body
    case Members(members) => StepsLists(reg, members, at)
    case Plain(parts) => if task in reg then PartsLists(reg, reg[task].actions, parts, at) else []
  }

  function PartsLists(reg: Registry, actions: seq<Action>, parts: seq<Part>, at: nat): seq<Listing>
    decreases parts
  {
    if parts == [] || |actions| != |parts| then []
    else
      var n := |parts| - 1;
      PartsLists(reg, actions[..n], parts[..n], at) +
      PartLists(reg, actions[n], parts[n], at + |PartsOps(reg, parts[..n])|)
  }

  function PartLists(reg: Registry, action: Action, part: Part, at: nat): seq<Listing>
    decreases part
  {
    if action.RunList? && part.Ran? then [Listing(action.names, part.steps, at)] + StepsLists(reg, part.steps, at)
    else []
  }

  /** All Run lists of a recording, the outermost first. */
  function AllLists(reg: Registry, names: seq<string>, steps: seq<Step>, at: nat): seq<Listing> {
    [Listing(names, steps, at)] + StepsLists(reg, steps, at)
  }

  /** piece is in one piece from line from of a plan whose line at is ops[0]. */
  predicate LiesAt(ops: seq<Op>, at: nat, piece: seq<Op>, from: nat) {
    at <= from && from - at + |piece| <= |ops| && ops[from - at..from - at + |piece|] == piece
  }

  /** The list is recorded as its names ask for, and so lies in the plan. */
  ghost predicate ListedIn(reg: Registry, ops: seq<Op>, at: nat, l: Listing) {
    LegalSteps(reg, ListEnv(), ByList, l.names, l.steps) && LiesAt(ops, at, StepsOps(reg, l.steps), l.at)
  }

  ghost predicate AllListed(reg: Registry, ops: seq<Op>, at: nat, lists: seq<Listing>) {
    forall i :: 0 <= i < |lists| ==> ListedIn(reg, ops, at, lists[i])
  }

  lemma {:induction false} StillLies(front: seq<Op>, ops: seq<Op>, back: seq<Op>, at: nat, piece: seq<Op>, from: nat)
    requires LiesAt(ops, at + |front|, piece, from)
    ensures LiesAt(front + ops + back, at, piece, from)
  {
    var all, a, n := front + ops + back, from - at, |piece|;
    assert all[a..a + n] == ops[a - |front|..a - |front| + n];
  }

  lemma {:induction false} StillListed(reg: Registry, front: seq<Op>, ops: seq<Op>, back: seq<Op>, at: nat, l: Listing)
    requires ListedIn(reg, ops, at + |front|, l)
    ensures ListedIn(reg, front + ops + back, at, l)
  {
    hide LegalSteps, StepsOps, LiesAt;
    StillLies(front, ops, back, at, StepsOps(reg, l.steps), l.at);
  }

  lemma {:induction false} AllStillListed(reg: Registry, front: seq<Op>, ops: seq<Op>, back: seq<Op>, at: nat,
                                          lists: seq<Listing>)
    requires AllListed(reg, ops, at + |front|, lists)
    ensures AllListed(reg, front + ops + back, at, lists)
  {
    hide ListedIn;
    forall i | 0 <= i < |lists|
      ensures ListedIn(reg, front + ops + back, at, lists[i])
    {
      StillListed(reg, front, ops, back, at, lists[i]);
    }
  }

  lemma {:induction false} ListedConcat(reg: Registry, a: seq<Op>, b: seq<Op>, at: nat, x: seq<Listing>,
                                        y: seq<Listing>)
    requires AllListed(reg, a, at, x) && AllListed(reg, b, at + |a|, y)
    ensures AllListed(reg, a + b, at, x + y)
  {
    AllStillListed(reg, [], a, b, at, x);
    AllStillListed(reg, a, b, [], at, y);
    assert [] + a + b == a + b && a + b + [] == a + b;
    hide ListedIn;
  }

  lemma {:induction false} NoneListed(reg: Registry, ops: seq<Op>, at: nat)
    ensures AllListed(reg, ops, at, []) && StepsLists(reg, [], at) == []
  {
  }

  /** What there is to know of the lists of the last of some steps. */
  lemma {:induction false} LastStepLists(reg: Registry, steps: seq<Step>, at: nat)
    requires steps != []
    ensures var n := |steps| - 1;
            && StepsOps(reg, steps) == StepsOps(reg, steps[..n]) + StepOps(reg, steps[n])
            && StepsLists(reg, steps, at) ==
                 StepsLists(reg, steps[..n], at) + StepLists(reg, steps[n], at + |StepsOps(reg, steps[..n])|)
  {
    hide StepOps, StepLists;
  }

  lemma {:induction false} StepsListed(reg: Registry, env: Env, mode: Mode, names: seq<string>, steps: seq<Step>,
                                       at: nat)
    requires LegalSteps(reg, env, mode, names, steps)
    ensures AllListed(reg, StepsOps(reg, steps), at, StepsLists(reg, steps, at))
    decreases steps
  {
    hide *;
    NoneListed(reg, StepsOps(reg, steps), at);
    if steps != [] {
      var n := |steps| - 1;
      LastStep(reg, env, mode, names, steps, at);
      LastStepLists(reg, steps, at);
      StepsListed(reg, env, mode, names[..n], steps[..n], at);
      StepListed(reg, After(env, mode, steps[..n]), mode, names[n], steps[n], at + |StepsOps(reg, steps[..n])|);
      ListedConcat(reg, StepsOps(reg, steps[..n]), StepOps(reg, steps[n]), at, StepsLists(reg, steps[..n], at),
                   StepLists(reg, steps[n], at + |StepsOps(reg, steps[..n])|));
    }
  }

  lemma {:induction false} StepListed(reg: Registry, env: Env, mode: Mode, name: string, step: Step, at: nat)
    requires LegalStep(reg, env, mode, name, step)
    ensures AllListed(reg, StepOps(reg, step), at, StepLists(reg, step, at))
    decreases step
  {
    hide AllListed, RecordOps, RecordLists, LegalRecord, Skips;
    NoneListed(reg, StepOps(reg, step), at);
    if step.Take? {
      RecordListed(reg, env, step.record, at);
    }
  }

  lemma {:induction false} RecordListed(reg: Registry, env: Env, r: Record, at: nat)
    requires LegalRecord(reg, env, r)
    ensures AllListed(reg, RecordOps(reg, r), at, RecordLists(reg, r, at))
    decreases r
  {
    hide *;
    RecordParts(reg, env, r, at);
    RecordListsAre(reg, r, at);
    var from, inner := at + |StepsOps(reg, r.needs)|, BodyOps(reg, r.body);
    var lists := BodyLists(reg, r.task, r.body, from + Lead(reg, r.task));
    StepsListed(reg, env, ByNeed, NeedNames(reg, r.task), r.needs, at);
    BodyListed(reg, After(env, ByNeed, r.needs), r.task, r.body, from + Lead(reg, r.task));
    ListedInside(reg, r.task, inner, from, lists);
    ListedConcat(reg, StepsOps(reg, r.needs), Envelope(reg, r.task, inner), at, StepsLists(reg, r.needs, at), lists);
  }

  lemma {:induction false} RecordListsAre(reg: Registry, r: Record, at: nat)
    ensures RecordOps(reg, r) == StepsOps(reg, r.needs) + Envelope(reg, r.task, BodyOps(reg, r.body))
    ensures RecordLists(reg, r, at) ==
            StepsLists(reg, r.needs, at) +
            BodyLists(reg, r.task, r.body, at + |StepsOps(reg, r.needs)| + Lead(reg, r.task))
  {
    hide StepsOps, BodyOps, StepsLists, BodyLists, Lead, Envelope;
  }

  lemma {:induction false} ListedInside(reg: Registry, task: string, inner: seq<Op>, at: nat, lists: seq<Listing>)
    requires AllListed(reg, inner, at + Lead(reg, task), lists)
    ensures AllListed(reg, Envelope(reg, task, inner), at, lists)
  {
    hide AllListed;
    if task in reg && reg[task].guard != [] {
      var begin := ControlOp(KindWhenBegin, "when." + task, reg[task].guard, reg[task].privileged);
      AllStillListed(reg, [begin], inner, [ControlOp(KindWhenEnd, "", [], reg[task].privileged)], at, lists);
    }
  }

  lemma {:induction false} BodyListed(reg: Registry, env: Env, task: string, body: Body, at: nat)
    requires task in reg && LegalBody(reg, env, task, body)
    ensures AllListed(reg, BodyOps(reg, body), at, BodyLists(reg, task, body, at))
    decreases body
  {
    match body {
      case Members(members) =>
        hide AllListed, LegalSteps, StepsOps, StepsLists, MemberNames, MembersKnown;
        StepsListed(reg, TreeEnv(env), ByMember, MemberNames(reg, task), members, at);
      case Plain(parts) =>
        hide AllListed, LegalParts, PartsOps, PartsLists;
        PartsListed(reg, reg[task].actions, parts, at);
    }
  }

  lemma {:induction false} LastPartLists(reg: Registry, actions: seq<Action>, parts: seq<Part>, at: nat)
    requires LegalParts(reg, actions, parts) && parts != []
    ensures var n := |parts| - 1;
            && |actions| == |parts| && LegalParts(reg, actions[..n], parts[..n]) && LegalPart(reg, actions[n], parts[n])
            && PartsOps(reg, parts) == PartsOps(reg, parts[..n]) + PartOps(reg, parts[n])
            && PartsLists(reg, actions, parts, at) ==
                 PartsLists(reg, actions[..n], parts[..n], at) +
                 PartLists(reg, actions[n], parts[n], at + |PartsOps(reg, parts[..n])|)
  {
    hide LegalPart, PartOps, PartLists;
  }

  lemma {:induction false} NoPartLists(reg: Registry, actions: seq<Action>, at: nat)
    ensures PartsLists(reg, actions, [], at) == []
  {
  }

  lemma {:induction false} PartsListed(reg: Registry, actions: seq<Action>, parts: seq<Part>, at: nat)
    requires LegalParts(reg, actions, parts)
    ensures AllListed(reg, PartsOps(reg, parts), at, PartsLists(reg, actions, parts, at))
    decreases parts
  {
    hide *;
    NoneListed(reg, PartsOps(reg, parts), at);
    NoPartLists(reg, actions, at);
    if parts != [] {
      var n := |parts| - 1;
      LastPartLists(reg, actions, parts, at);
      PartsListed(reg, actions[..n], parts[..n], at);
      PartListed(reg, actions[n], parts[n], at + |PartsOps(reg, parts[..n])|);
      ListedConcat(reg, PartsOps(reg, parts[..n]), PartOps(reg, parts[n]), at,
                   PartsLists(reg, actions[..n], parts[..n], at),
                   PartLists(reg, actions[n], parts[n], at + |PartsOps(reg, parts[..n])|));
    }
  }

  lemma {:induction false} PartListed(reg: Registry, action: Action, part: Part, at: nat)
    requires LegalPart(reg, action, part)
    ensures AllListed(reg, PartOps(reg, part), at, PartLists(reg, action, part, at))
    decreases part
  {
    hide AllListed, LegalSteps, StepsOps, StepsLists;
    NoneListed(reg, PartOps(reg, part), at);
    if action.RunList? {
      StepsListed(reg, ListEnv(), ByList, action.names, part.steps, at);
      OutermostListed(reg, action.names, part.steps, at);
    }
  }

  /** A list and the lists in it. */
  lemma {:induction false} OutermostListed(reg: Registry, names: seq<string>, steps: seq<Step>, at: nat)
    requires LegalSteps(reg, ListEnv(), ByList, names, steps)
    requires AllListed(reg, StepsOps(reg, steps), at, StepsLists(reg, steps, at))
    ensures AllListed(reg, StepsOps(reg, steps), at, AllLists(reg, names, steps, at))
  {
    hide ListedIn, LegalSteps, StepsOps, StepsLists;
    ListedSelf(reg, names, steps, at);
  }

  lemma {:induction false} ListedSelf(reg: Registry, names: seq<string>, steps: seq<Step>, at: nat)
    requires LegalSteps(reg, ListEnv(), ByList, names, steps)
    ensures ListedIn(reg, StepsOps(reg, steps), at, Listing(names, steps, at))
  {
    hide LegalSteps, StepsOps, LiesAt;
    LiesWhole(StepsOps(reg, steps), at);
  }

  lemma {:induction false} LiesWhole(ops: seq<Op>, at: nat)
    ensures LiesAt(ops, at, ops, at)
  {
    assert ops[0..|ops|] == ops;
  }

  /** What every Run list of a plan keeps, in the plan's own lines: its names
      are recordable and done, each body whole, behind the bodies of its needs
      and around its members', no task twice in a tree, and nothing operational
      in a pattern's tree. */
  ghost predicate Disciplined(reg: Registry, plan: seq<Op>, l: Listing) {
    var spans := StepsSpans(reg, l.steps, l.at);
    && ListedIn(reg, plan, 0, l) && (forall k :: 0 <= k < |l.names| ==> Recordable(reg, l.names[k]))
    && AllComplete(reg, plan, 0, spans) && AllInOrder(reg, [], spans) && TreesOnce(reg, spans)
    && PatternsHarmless(reg, spans) && NamesDone(reg, l.names, spans, l.at + |StepsOps(reg, l.steps)|)
  }

  lemma {:induction false} FreshSets(reg: Registry, at: nat)
    ensures SetsRecordable(reg, ListEnv()) && SetsDone(ListEnv(), [], at)
  {
  }

  lemma {:induction false} ListKeeps(reg: Registry, plan: seq<Op>, l: Listing)
    requires ListedIn(reg, plan, 0, l)
    ensures Disciplined(reg, plan, l)
  {
    hide *;
    var ops, spans, to := StepsOps(reg, l.steps), StepsSpans(reg, l.steps, l.at), l.at + |StepsOps(reg, l.steps)|;
    ListedFacts(reg, plan, l);
    FreshSets(reg, l.at);
    StepsRecordable(reg, ListEnv(), ByList, l.names, l.steps);
    StepsComplete(reg, l.steps, l.at);
    AllStillComplete(reg, plan[..l.at], ops, plan[to..], 0, spans);
    StepsInOrder(reg, ListEnv(), ByList, l.names, l.steps, [], l.at);
    assert [] + spans == spans;
    StepsTrees(reg, ListEnv(), ByList, l.names, l.steps, l.at);
    PatternsPullNothing(reg, spans);
    DisciplinedIs(reg, plan, l);
  }

  lemma {:induction false} ListedFacts(reg: Registry, plan: seq<Op>, l: Listing)
    requires ListedIn(reg, plan, 0, l)
    ensures LegalSteps(reg, ListEnv(), ByList, l.names, l.steps)
    ensures var to := l.at + |StepsOps(reg, l.steps)|;
            to <= |plan| && plan == plan[..l.at] + StepsOps(reg, l.steps) + plan[to..]
  {
    hide LegalSteps, StepsOps;
    LiesBetween(plan, StepsOps(reg, l.steps), l.at);
  }

  lemma {:induction false} LiesBetween(plan: seq<Op>, piece: seq<Op>, from: nat)
    requires LiesAt(plan, 0, piece, from)
    ensures from + |piece| <= |plan| && plan == plan[..from] + piece + plan[from + |piece|..]
  {
    var to := from + |piece|;
    assert plan == plan[..from] + plan[from..to] + plan[to..];
  }

  lemma {:induction false} DisciplinedIs(reg: Registry, plan: seq<Op>, l: Listing)
    requires ListedIn(reg, plan, 0, l) && forall k :: 0 <= k < |l.names| ==> Recordable(reg, l.names[k])
    requires var spans := StepsSpans(reg, l.steps, l.at);
             && AllComplete(reg, plan, 0, spans) && AllInOrder(reg, [], spans) && TreesOnce(reg, spans)
             && PatternsHarmless(reg, spans) && NamesDone(reg, l.names, spans, l.at + |StepsOps(reg, l.steps)|)
    ensures Disciplined(reg, plan, l)
  {
    hide ListedIn, Recordable, StepsSpans, StepsOps, AllComplete, AllInOrder, TreesOnce, PatternsHarmless, NamesDone;
  }

  /** The discipline holds for every Run list of a recording behind a header,
      at any depth, and what was recorded is balanced if the emits are. */
  lemma {:induction false} EveryListKeeps(reg: Registry, header: Op, names: seq<string>, steps: seq<Step>)
    requires LegalSteps(reg, ListEnv(), ByList, names, steps)
    ensures var plan, lists := [header] + StepsOps(reg, steps), AllLists(reg, names, steps, 1);
            forall i :: 0 <= i < |lists| ==> Disciplined(reg, plan, lists[i])
    ensures EmitsBalanced(reg) ==> Balanced(StepsOps(reg, steps))
  {
    hide *;
    var ops, lists := StepsOps(reg, steps), AllLists(reg, names, steps, 1);
    var plan := [header] + ops;
    StepsListed(reg, ListEnv(), ByList, names, steps, 1);
    OutermostListed(reg, names, steps, 1);
    AllStillListed(reg, [header], ops, [], 0, lists);
    assert [header] + ops + [] == plan;
    forall i | 0 <= i < |lists|
      ensures Disciplined(reg, plan, lists[i])
    {
      ListedAt(reg, plan, 0, lists, i);
      ListKeeps(reg, plan, lists[i]);
    }
    if EmitsBalanced(reg) {
      StepsBalanced(reg, ListEnv(), ByList, names, steps);
    }
  }

  lemma {:induction false} ListedAt(reg: Registry, plan: seq<Op>, at: nat, lists: seq<Listing>, i: nat)
    requires AllListed(reg, plan, at, lists) && i < |lists|
    ensures ListedIn(reg, plan, at, lists[i])
  {
    hide ListedIn;
  }
}
