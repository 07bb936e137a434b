/** The task registry: Needs and alias edges, the registration checks of
    api/task_needs.go and api/task_alias.go, and containsOperational of
    api/aggregate.go. */
module Tasks {
  import opened Walks
  import opened Ops

  /** What a task body does while it is recorded: emit ops, or run other tasks
      and go on whatever that returns. */
  datatype Action = Emit(ops: seq<Op>) | RunList(names: seq<string>)

  /** A queued task.  An alias has a target and nothing else; an aggregate's
      body records members instead of running actions, the listed ones or, for
      a pattern aggregate, those of the matched ones that qualify.  whenFails
      says its opaque predicate fails on the controller, inactive that
      aggregates skip it. */
  datatype Task = Task(aliasOf: string, prefix: string, needs: seq<string>,
                       aggregate: bool, pattern: bool, members: seq<string>, matched: seq<string>,
                       operational: bool, privileged: bool, guard: seq<Predicate>,
                       whenFails: bool, inactive: bool, actions: seq<Action>)

  type Registry = map<string, Task>

  /** resolveNeedName: relative to the prefix first, then as a full name. */
  function ResolveNeed(exists_: set<string>, prefix: string, need: string): (name: Option<string>)
    ensures name.Some? ==>
              name.value in exists_ && (name.value == need || (prefix != "" && name.value == prefix + need))
    ensures name.None? ==> need !in exists_ && (prefix == "" || prefix + need !in exists_)
    ensures prefix != "" && prefix + need in exists_ ==> name == Some(prefix + need)
    ensures (prefix == "" || prefix + need !in exists_) && need in exists_ ==> name == Some(need)
  {
    if prefix != "" && prefix + need in exists_ then Some(prefix + need)
    else if need in exists_ then Some(need) else None
  }

  function ResolvedNeeds(exists_: set<string>, prefix: string, needs: seq<string>): (names: seq<string>)
    ensures forall y :: y in names <==>
              (exists k :: 0 <= k < |needs| && ResolveNeed(exists_, prefix, needs[k]) == Some(y))
  {
    if needs == [] then []
    else
      var rest := ResolvedNeeds(exists_, prefix, needs[..|needs| - 1]);
      assert forall k :: 0 <= k < |needs| - 1 ==> needs[..|needs| - 1][k] == needs[k];
      match ResolveNeed(exists_, prefix, needs[|needs| - 1])
      case Some(y) => rest + [y]
      case None => rest
  }

  /** What a need names where it names something. */
  function Named(exists_: set<string>, prefix: string, need: string): string {
    if prefix != "" && prefix + need in exists_ then prefix + need else need
  }

  lemma {:induction false} ResolvedNext(exists_: set<string>, prefix: string, needs: seq<string>)
    requires needs != [] && ResolveNeed(exists_, prefix, needs[|needs| - 1]).Some?
    ensures ResolvedNeeds(exists_, prefix, needs) ==
            ResolvedNeeds(exists_, prefix, needs[..|needs| - 1]) + [Named(exists_, prefix, needs[|needs| - 1])]
  {
  }

  /** names are the needs' tasks one by one: the prefixed one if there is one,
      the plain one else. */
  predicate NamesInOrder(exists_: set<string>, prefix: string, needs: seq<string>, names: seq<string>) {
    |names| == |needs| && forall k :: 0 <= k < |needs| ==> names[k] == Named(exists_, prefix, needs[k])
  }

  lemma {:induction false} NamesGrow(exists_: set<string>, prefix: string, needs: seq<string>, names: seq<string>)
    requires needs != [] && NamesInOrder(exists_, prefix, needs[..|needs| - 1], names)
    ensures NamesInOrder(exists_, prefix, needs, names + [Named(exists_, prefix, needs[|needs| - 1])])
  {
  }

  lemma {:induction false} NoNeedsNamed(exists_: set<string>, prefix: string)
    ensures NamesInOrder(exists_, prefix, [], ResolvedNeeds(exists_, prefix, []))
  {
  }

  /** Needs that all name something resolve in order. */
  lemma {:induction false} NeedsResolve(exists_: set<string>, prefix: string, needs: seq<string>)
    requires forall k :: 0 <= k < |needs| ==> ResolveNeed(exists_, prefix, needs[k]).Some?
    ensures NamesInOrder(exists_, prefix, needs, ResolvedNeeds(exists_, prefix, needs))
  {
    hide *;
    if needs == [] {
      NoNeedsNamed(exists_, prefix);
    } else {
      var n := |needs| - 1;
      NeedsResolve(exists_, prefix, needs[..n]);
      ResolvedNext(exists_, prefix, needs);
      NamesGrow(exists_, prefix, needs, ResolvedNeeds(exists_, prefix, needs[..n]));
    }
  }

  /** The Needs graph, in the tasks' own fields: an alias leads to its target;
      a task to the prefixed task of each need if that exists, else to the
      plain one if that exists. */
  lemma {:induction false} NeedGraphMeans(reg: Registry, x: string, y: string)
    ensures (x, y) in NeedGraph(reg) <==>
              x in reg &&
              if reg[x].aliasOf != "" then y == reg[x].aliasOf
              else
                y in reg &&
                exists k :: 0 <= k < |reg[x].needs| && y == Named(reg.Keys, reg[x].prefix, reg[x].needs[k])
  {
    if x in reg && reg[x].aliasOf == "" {
      forall k | 0 <= k < |reg[x].needs|
        ensures ResolveNeed(reg.Keys, reg[x].prefix, reg[x].needs[k]) == Some(y) <==>
                  y in reg && y == Named(reg.Keys, reg[x].prefix, reg[x].needs[k])
      {
      }
    }
    hide Named, ResolveNeed;
  }

  /** needEdges: an alias leads to its target, a task to its resolved needs. */
  function NeedEdges(t: Task, exists_: set<string>): seq<string> {
    if t.aliasOf != "" then [t.aliasOf] else ResolvedNeeds(exists_, t.prefix, t.needs)
  }

  type Names = set<(string, string)>

  ghost function NeedGraph(reg: Registry): Names {
    set x, y | x in reg && y in NeedEdges(reg[x], reg.Keys) :: (x, y)
  }

  /** name lies on a cycle. */
  ghost predicate OnCycle(e: Names, name: string) {
    exists u :: Reach(e, name, u) && (u, name) in e
  }

  /** Registering name adds no edge between two other tasks: where it changes
      what a need resolves to, the need now resolves to name. */
  lemma {:induction false} NoOtherEdge(reg: Registry, name: string, t: Task, x: string, y: string)
    requires x != name && y != name && (x, y) in NeedGraph(reg[name := t]) && name !in reg
    ensures (x, y) in NeedGraph(reg)
  {
    var more := reg[name := t];
    if reg[x].aliasOf == "" {
      var k :| 0 <= k < |reg[x].needs| && ResolveNeed(more.Keys, reg[x].prefix, reg[x].needs[k]) == Some(y);
      assert ResolveNeed(reg.Keys, reg[x].prefix, reg[x].needs[k]) == Some(y);
    }
  }

  /** e and f differ in edges at name only: a walk of e is a walk of f, or
      passes name. */
  lemma {:induction false} AvoidsOrPasses(e: Names, f: Names, name: string, a: string, b: string, k: nat)
    requires ReachN(e, a, b, k) && forall x, y :: (x, y) in e && x != name && y != name ==> (x, y) in f
    ensures Reach(f, a, b) || (Reach(e, a, name) && Reach(e, name, b))
    decreases k
  {
    ReachRefl(f, a);
    ReachRefl(e, a);
    if k > 0 {
      var c :| (a, c) in e && ReachN(e, c, b, k - 1);
      AvoidsOrPasses(e, f, name, c, b, k - 1);
      assert Reach(e, c, b);
      if a == name {
        EdgeThenReach(e, a, c, b);
      } else if c == name {
        ReachEdge(e, a, c);
      } else if Reach(f, c, b) {
        EdgeThenReach(f, a, c, b);
      } else {
        EdgeThenReach(e, a, c, name);
      }
    }
  }

  /** Registering a task or an alias keeps an acyclic Needs graph acyclic
      exactly when the new name does not lie on a cycle. */
  lemma {:induction false} RegisterKeepsAcyclic(reg: Registry, name: string, t: Task)
    requires name !in reg && Acyclic(NeedGraph(reg))
    ensures Acyclic(NeedGraph(reg[name := t])) <==> !OnCycle(NeedGraph(reg[name := t]), name)
  {
    var f, e := NeedGraph(reg), NeedGraph(reg[name := t]);
    forall x, y | (x, y) in e && x != name && y != name
      ensures (x, y) in f
    {
      NoOtherEdge(reg, name, t, x, y);
    }
    hide NeedGraph;
    if OnCycle(e, name) {
      var u :| Reach(e, name, u) && (u, name) in e;
    }
    if a, b :| (a, b) in e && Reach(e, b, a) && !OnCycle(e, name) {
      CycleAtName(e, f, name, a, b);
    }
  }

  lemma {:induction false} CycleAtName(e: Names, f: Names, name: string, a: string, b: string)
    requires (a, b) in e && Reach(e, b, a) && Acyclic(f)
    requires forall x, y :: (x, y) in e && x != name && y != name ==> (x, y) in f
    ensures OnCycle(e, name)
  {
    if b == name {
      assert Reach(e, name, a);
    } else if a == name {
      var u := ReachLast(e, b, a);
      EdgeThenReach(e, a, b, u);
    } else {
      var k: nat :| ReachN(e, b, a, k);
      AvoidsOrPasses(e, f, name, b, a, k);
      ReachThenEdge(e, name, a, b);
      var u := ReachLast(e, b, name);
      ReachTrans(e, name, b, u);
    }
  }

  /** A walk of Needs edges from the head of the chain to its end. */
  ghost predicate Chain(e: Names, chain: seq<string>) {
    forall i :: 0 <= i < |chain| - 1 ==> (chain[i], chain[i + 1]) in e
  }

  lemma {:induction false} ChainReaches(e: Names, chain: seq<string>, k: nat)
    requires Chain(e, chain) && k < |chain|
    ensures Reach(e, chain[0], chain[k])
  {
    ReachRefl(e, chain[0]);
    if k > 0 {
      ChainReaches(e, chain, k - 1);
      ReachThenEdge(e, chain[0], chain[k - 1], chain[k]);
    }
  }

  /** No edge from u leads to name, and those to registered tasks lead to
      visited ones. */
  ghost predicate Closes(reg: Registry, name: string, visited: set<string>, u: string) {
    forall v :: (u, v) in NeedGraph(reg) ==> v != name && (v in reg ==> v in visited)
  }

  lemma {:induction false} ClosesMore(reg: Registry, name: string, visited: set<string>, more: set<string>, u: string)
    requires Closes(reg, name, visited, u) && visited <= more
    ensures Closes(reg, name, more, u)
  {
  }

  /** The recursive walk of needsCycle; visited is shared by all its calls. */
  method WalkNeeds(reg: Registry, name: string, cur: string, path: seq<string>, was: set<string>)
    returns (chain: Option<seq<string>>, visited: set<string>)
    requires cur in reg && path != [] && path[|path| - 1] == cur && Chain(NeedGraph(reg), path)
    requires was <= reg.Keys
    decreases |reg.Keys - was|
    ensures was <= visited <= reg.Keys
    ensures chain.Some? ==>
              path < chain.value && chain.value[|chain.value| - 1] == name && Chain(NeedGraph(reg), chain.value)
    ensures chain.None? ==> Closes(reg, name, visited, cur) && forall u :: u in visited && u !in was ==>
              Closes(reg, name, visited, u)
  {
    hide NeedGraph, Closes;
    visited, chain := was, None;
    var edges := NeedEdges(reg[cur], reg.Keys);
    EdgesListed(reg, cur);
    for k := 0 to |edges|
      invariant was <= visited <= reg.Keys
      invariant forall j :: 0 <= j < k ==> edges[j] != name && (edges[j] in reg ==> edges[j] in visited)
      invariant forall u :: u in visited && u !in was ==> Closes(reg, name, visited, u)
    {
      var next := edges[k];
      if next == name {
        return Some(path + [next]), visited;
      }
      if next !in reg || next in visited {
        continue;
      }
      ghost var before := visited;
      FewerLeft(reg.Keys, was, visited + {next});
      var found, more := WalkNeeds(reg, name, next, path + [next], visited + {next});
      visited := more;
      if found.Some? {
        return found, visited;
      }
      forall u | u in visited && u !in was
        ensures Closes(reg, name, visited, u)
      {
        if u in before {
          ClosesMore(reg, name, before, visited, u);
        }
      }
    }
    AllClosed(reg, name, visited, cur);
  }

  lemma {:induction false} EdgesListed(reg: Registry, cur: string)
    requires cur in reg
    ensures forall k :: 0 <= k < |NeedEdges(reg[cur], reg.Keys)| ==>
              (cur, NeedEdges(reg[cur], reg.Keys)[k]) in NeedGraph(reg)
  {
    forall k | 0 <= k < |NeedEdges(reg[cur], reg.Keys)|
      ensures (cur, NeedEdges(reg[cur], reg.Keys)[k]) in NeedGraph(reg)
    {
      assert NeedEdges(reg[cur], reg.Keys)[k] in NeedEdges(reg[cur], reg.Keys);
    }
  }

  lemma {:induction false} AllClosed(reg: Registry, name: string, visited: set<string>, cur: string)
    requires cur in reg
    requires forall k :: 0 <= k < |NeedEdges(reg[cur], reg.Keys)| ==>
               && NeedEdges(reg[cur], reg.Keys)[k] != name
               && (NeedEdges(reg[cur], reg.Keys)[k] in reg ==> NeedEdges(reg[cur], reg.Keys)[k] in visited)
    ensures Closes(reg, name, visited, cur)
  {
  }

  lemma {:induction false} FewerLeft(all: set<string>, was: set<string>, more: set<string>)
    requires was < more <= all
    ensures |all - more| < |all - was|
  {
    var x :| x in more && x !in was;
    assert all - more <= (all - was) - {x};
    assert all - was == ((all - was) - {x}) + {x};
    SubsetSize(all - more, (all - was) - {x});
  }

  lemma {:induction false} SubsetSize(s: set<string>, t: set<string>)
    requires s <= t
    ensures |s| <= |t|
  {
    assert t == s + (t - s);
  }

  /** needsCycle: a chain from name back to itself, exactly if there is one. */
  method NeedsCycle(reg: Registry, name: string) returns (chain: Option<seq<string>>)
    requires name in reg
    ensures chain.Some? <==> OnCycle(NeedGraph(reg), name)
    ensures chain.Some? ==>
              |chain.value| >= 2 && chain.value[0] == name == chain.value[|chain.value| - 1] &&
                Chain(NeedGraph(reg), chain.value)
  {
    hide NeedGraph, Closes;
    var visited;
    chain, visited := WalkNeeds(reg, name, name, [name], {});
    if chain.Some? {
      var c := chain.value;
      assert c[0] == [name][0];
      ChainReaches(NeedGraph(reg), c, |c| - 2);
    } else {
      NoWayBack(reg, name, visited);
    }
  }

  lemma {:induction false} NoWayBack(reg: Registry, name: string, visited: set<string>)
    requires name in reg && Closes(reg, name, visited, name)
    requires forall u :: u in visited ==> Closes(reg, name, visited, u)
    ensures !OnCycle(NeedGraph(reg), name)
  {
    var e := NeedGraph(reg);
    if u :| Reach(e, name, u) && (u, name) in e {
      var s := visited + {name} + set x, y | x in reg && y in NeedEdges(reg[x], reg.Keys) && y !in reg :: y;
      ReachClosed(e, s, name, u);
    }
  }

  datatype NeedCheck = NeedsOk | EmptyNeed | SelfNeed | NeedCycle(chain: seq<string>)

  /** checkNeeds on the task about to be registered under name. */
  method CheckNeeds(reg: Registry, name: string, t: Task) returns (r: NeedCheck)
    requires t.aliasOf == ""
    ensures r.NeedsOk? <==> "" !in t.needs && !OnCycle(NeedGraph(reg[name := t]), name)
    ensures r.NeedCycle? ==>
              Chain(NeedGraph(reg[name := t]), r.chain) && |r.chain| >= 2 &&
                r.chain[0] == name == r.chain[|r.chain| - 1]
  {
    var more := reg[name := t];
    if |t.needs| == 0 {
      NoNeedsNoCycle(more, name);
      return NeedsOk;
    }
    for k := 0 to |t.needs|
      invariant forall j :: 0 <= j < k ==> t.needs[j] != ""
    {
      if t.needs[k] == "" {
        return EmptyNeed;
      }
      var target := ResolveNeed(more.Keys, t.prefix, t.needs[k]);
      if target == Some(name) {
        SelfIsCycle(more, name, k);
        return SelfNeed;
      }
    }
    var chain := NeedsCycle(more, name);
    r := if chain.Some? then NeedCycle(chain.value) else NeedsOk;
  }

  lemma {:induction false} NoNeedsNoCycle(reg: Registry, name: string)
    requires name in reg && reg[name].aliasOf == "" && reg[name].needs == []
    ensures !OnCycle(NeedGraph(reg), name)
  {
    var e := NeedGraph(reg);
    if u :| Reach(e, name, u) && (u, name) in e {
      if u != name {
        var v := ReachFirst(e, name, u);
      }
    }
  }

  lemma {:induction false} SelfIsCycle(reg: Registry, name: string, k: nat)
    requires name in reg && reg[name].aliasOf == "" && k < |reg[name].needs|
    requires ResolveNeed(reg.Keys, reg[name].prefix, reg[name].needs[k]) == Some(name)
    ensures OnCycle(NeedGraph(reg), name)
  {
    ReachRefl(NeedGraph(reg), name);
    assert name in NeedEdges(reg[name], reg.Keys);
  }

  /** checkAlias.  It does not look at the Needs graph. */
  predicate AliasAccepted(reg: Registry, name: string, target: string) {
    name != "" && target != "" && target != name && !(target in reg && name in Listed(reg[target]))
  }

  /** The members a task lists; a pattern aggregate lists none. */
  function Listed(t: Task): seq<string> {
    if t.pattern then [] else t.members
  }

  function AliasTask(target: string): Task {
    Task(target, "", [], false, false, [], [], false, false, [], false, false, [])
  }

  function NeedingTask(needs: seq<string>): Task {
    Task("", "", needs, false, false, [], [], false, false, [], false, false, [])
  }

  /** So an alias registered last can close a Needs cycle: a task that needs
      the name "a", then the alias "a" of that task. */
  lemma {:induction false} AliasClosesCycle()
    ensures var reg := map["t" := NeedingTask(["a"])];
            Acyclic(NeedGraph(reg)) && AliasAccepted(reg, "a", "t") && !Acyclic(NeedGraph(reg["a" := AliasTask("t")]))
  {
    var reg := map["t" := NeedingTask(["a"])];
    var more := reg["a" := AliasTask("t")];
    assert ResolveNeed(reg.Keys, "", "a") == None;
    assert NeedGraph(reg) == {};
    assert ["a"][0] == "a" && ResolveNeed(more.Keys, "", "a") == Some("a");
    assert "a" in NeedEdges(more["t"], more.Keys);
    assert ("t", "a") in NeedGraph(more);
    assert "t" in NeedEdges(more["a"], more.Keys);
    assert ("a", "t") in NeedGraph(more);
    ReachEdge(NeedGraph(more), "a", "t");
  }

  /** What counts as contained: an alias's target, a task's needs and its
      listed members.  The matches of a pattern aggregate do not count. */
  function Contents(t: Task, exists_: set<string>): seq<string> {
    if t.aliasOf != "" then [t.aliasOf] else ResolvedNeeds(exists_, t.prefix, t.needs) + Listed(t)
  }

  ghost function ContentGraph(reg: Registry): Names {
    set x, y | x in reg && y in Contents(reg[x], reg.Keys) :: (x, y)
  }

  /** The content graph in the tasks' own fields. */
  lemma {:induction false} ContentGraphMeans(reg: Registry, x: string, y: string)
    ensures (x, y) in ContentGraph(reg) <==>
              x in reg &&
              if reg[x].aliasOf != "" then y == reg[x].aliasOf
              else (x, y) in NeedGraph(reg) || (!reg[x].pattern && y in reg[x].members)
  {
  }

  /** name is operational or leads to an operational task. */
  ghost predicate LeadsToOperational(reg: Registry, name: string) {
    exists x :: x in reg && reg[x].operational && Reach(ContentGraph(reg), name, x)
  }

  /** A visited task is not operational and its contents are visited. */
  ghost predicate Harmless(reg: Registry, visited: set<string>, u: string) {
    u in reg ==> !reg[u].operational && forall v :: v in Contents(reg[u], reg.Keys) ==> v in visited
  }

  /** The names a walk from anywhere can meet. */
  ghost function AllNames(reg: Registry): set<string> {
    reg.Keys + set x, y | x in reg && y in Contents(reg[x], reg.Keys) :: y
  }

  /** containsOperational; visited is shared by all its calls. */
  method ContainsOperational(reg: Registry, name: string, was: set<string>,
                             ghost bound: set<string>) returns (found: bool, visited: set<string>)
    requires AllNames(reg) + {name} + was <= bound
    decreases |bound - was|
    ensures was <= visited <= bound
    ensures found ==> LeadsToOperational(reg, name)
    ensures !found ==> name in visited && forall u :: u in visited && u !in was ==> Harmless(reg, visited, u)
  {
    hide LeadsToOperational, AllNames;
    if name in was {
      return false, was;
    }
    visited := was + {name};
    if name !in reg {
      return false, visited;
    }
    var t := reg[name];
    if t.operational {
      OperationalHere(reg, name);
      return true, visited;
    }
    var contents := Contents(t, reg.Keys);
    FewerLeft(bound, was, visited);
    for k := 0 to |contents|
      invariant was + {name} <= visited <= bound
      invariant forall j :: 0 <= j < k ==> contents[j] in visited
      invariant forall u :: u in visited && u !in was && u != name ==> Harmless(reg, visited, u)
    {
      ghost var before := visited;
      ContentsNamed(reg, name, k);
      FewerLeft(bound, was, visited);
      found, visited := ContainsOperational(reg, contents[k], visited, bound);
      if found {
        OperationalInside(reg, name, contents[k]);
        return;
      }
    }
    found := false;
  }

  lemma {:induction false} OperationalHere(reg: Registry, name: string)
    requires name in reg && reg[name].operational
    ensures LeadsToOperational(reg, name)
  {
    ReachRefl(ContentGraph(reg), name);
  }

  lemma {:induction false} ContentsNamed(reg: Registry, name: string, k: nat)
    requires name in reg && k < |Contents(reg[name], reg.Keys)|
    ensures Contents(reg[name], reg.Keys)[k] in AllNames(reg)
    ensures (name, Contents(reg[name], reg.Keys)[k]) in ContentGraph(reg)
  {
    assert Contents(reg[name], reg.Keys)[k] in Contents(reg[name], reg.Keys);
  }

  lemma {:induction false} OperationalInside(reg: Registry, name: string, inner: string)
    requires (name, inner) in ContentGraph(reg) && LeadsToOperational(reg, inner)
    ensures LeadsToOperational(reg, name)
  {
    var x :| x in reg && reg[x].operational && Reach(ContentGraph(reg), inner, x);
    EdgeThenReach(ContentGraph(reg), name, inner, x);
  }

  /** With nothing visited before, the answer is exact. */
  lemma {:induction false} HarmlessAll(reg: Registry, name: string, visited: set<string>)
    requires name in visited && forall u :: u in visited ==> Harmless(reg, visited, u)
    ensures !LeadsToOperational(reg, name)
  {
    if LeadsToOperational(reg, name) {
      var x :| x in reg && reg[x].operational && Reach(ContentGraph(reg), name, x);
      ReachClosed(ContentGraph(reg), visited, name, x);
    }
  }

  method IsOperational(reg: Registry, name: string) returns (found: bool)
    ensures found <==> LeadsToOperational(reg, name)
  {
    var visited;
    found, visited := ContainsOperational(reg, name, {}, AllNames(reg) + {name});
    if !found {
      HarmlessAll(reg, name, visited);
    }
  }
}
