/** The in-plan dependency graph of api/apply_order.go. */
module DepGraphs {
  import opened Levels
  import opened LevelGraphs
  import opened Ops

  /** deps lists each op's dependencies, waiters each op's dependents. */
  datatype DepGraph = DepGraph(byId: map<string, nat>, deps: seq<seq<nat>>, waiters: seq<seq<nat>>)

  /** Each dependency is listed as often at its dependent as at itself. */
  ghost predicate Mirrored(deps: seq<seq<nat>>, waiters: seq<seq<nat>>) {
    |deps| == |waiters| &&
    forall u, v :: 0 <= u < |deps| && 0 <= v < |deps| ==> multiset(deps[v])[u] == multiset(waiters[u])[v]
  }

  ghost predicate ListsOk(deps: seq<seq<nat>>, waiters: seq<seq<nat>>, n: nat) {
    Bounded(deps, n) && Bounded(waiters, n) && Mirrored(deps, waiters)
  }

  ghost predicate GraphOk(g: DepGraph, n: nat) {
    ListsOk(g.deps, g.waiters, n)
  }

  /** The dependency edges, dep -> dependent. */
  ghost function DepEdges(g: DepGraph): Edges {
    ListEdges(g.waiters)
  }

  function Append(adj: seq<seq<nat>>, u: nat, v: nat): seq<seq<nat>>
    requires u < |adj|
  {
    adj[u := adj[u] + [v]]
  }

  lemma {:induction false} ListsEmpty(n: nat)
    ensures ListsOk(seq(n, _ => []), seq(n, _ => []), n)
  {
  }

  lemma {:induction false} ListsAppend(deps: seq<seq<nat>>, waiters: seq<seq<nat>>, n: nat, u: nat, v: nat)
    requires ListsOk(deps, waiters, n) && u < n && v < n
    ensures ListsOk(Append(deps, v, u), Append(waiters, u, v), n)
  {
  }

  lemma {:induction false} AppendedEdge(adj: seq<seq<nat>>, u: nat, v: nat)
    requires u < |adj|
    ensures ListEdges(Append(adj, u, v)) == ListEdges(adj) + {(u, v)}
  {
    forall a: nat, b: nat
      ensures (a, b) in ListEdges(Append(adj, u, v)) <==> (a, b) in ListEdges(adj) + {(u, v)}
    {
    }
  }

  lemma {:induction false} EdgeListed(g: DepGraph, n: nat, u: nat, v: nat)
    requires GraphOk(g, n)
    ensures (u, v) in DepEdges(g) <==> u < n && v < n && v in g.waiters[u]
    ensures (u, v) in DepEdges(g) <==> u < n && v < n && u in g.deps[v]
  {
    if u < n && v < n {
      assert multiset(g.deps[v])[u] == multiset(g.waiters[u])[v];
    }
  }

  lemma {:induction false} GraphTransposed(g: DepGraph, n: nat)
    requires GraphOk(g, n)
    ensures Transposed(g.waiters, g.deps)
  {
    forall u, v | 0 <= u < n && 0 <= v < n
      ensures v in g.waiters[u] <==> u in g.deps[v]
    {
      EdgeListed(g, n, u, v);
    }
  }

  /** The index of the first op carrying id, or -1. */
  function FirstIndex(body: seq<Op>, id: string): (at: int)
    ensures -1 <= at < |body|
    ensures at >= 0 ==> body[at].id == id && forall k :: 0 <= k < at ==> body[k].id != id
    ensures at < 0 ==> forall k :: 0 <= k < |body| ==> body[k].id != id
  {
    if body == [] then -1
    else
      var at := FirstIndex(body[..|body| - 1], id);
      assert forall k :: 0 <= k < |body| - 1 ==> body[..|body| - 1][k] == body[k];
      if at >= 0 then at else if body[|body| - 1].id == id then |body| - 1 else -1
  }

  /** byId indexes the non-empty op IDs by their first op. */
  ghost predicate IndexesIds(byId: map<string, nat>, body: seq<Op>) {
    forall id ::
      if id != "" && FirstIndex(body, id) >= 0 then id in byId && byId[id] == FirstIndex(body, id)
      else id !in byId
  }

  /** The body indexes a dep list names, in order; a dep naming no op of the
      body adds none. */
  function Named(byId: map<string, nat>, deps: seq<string>): seq<nat> {
    if deps == [] then []
    else
      var last := deps[|deps| - 1];
      Named(byId, deps[..|deps| - 1]) + (if last in byId then [byId[last]] else [])
  }

  lemma {:induction false} NamedMember(byId: map<string, nat>, deps: seq<string>, at: nat)
    ensures at in Named(byId, deps) <==> exists d :: d in deps && d in byId && byId[d] == at
  {
    if deps != [] {
      NamedMember(byId, deps[..|deps| - 1], at);
    }
  }

  /** g is body's dependency graph. */
  ghost predicate GraphOf(g: DepGraph, body: seq<Op>) {
    && GraphOk(g, |body|) && IndexesIds(g.byId, body)
    && forall i :: 0 <= i < |body| ==> g.deps[i] == Named(g.byId, body[i].deps)
  }

  method IndexIds(body: seq<Op>) returns (byId: map<string, nat>)
    ensures IndexesIds(byId, body)
  {
    byId := map[];
    for i := 0 to |body|
      invariant IndexesIds(byId, body[..i])
    {
      assert body[..i + 1][..i] == body[..i];
      if body[i].id != "" && body[i].id !in byId {
        byId := byId[body[i].id := i];
      }
    }
    assert body[..|body|] == body;
  }

  /** One op's dependencies appended on both sides. */
  method AddDeps(body: seq<Op>, i: nat, byId: map<string, nat>, oldDeps: seq<seq<nat>>, oldWaiters: seq<seq<nat>>)
    returns (deps: seq<seq<nat>>, waiters: seq<seq<nat>>)
    requires i < |body| && IndexesIds(byId, body)
    requires |oldDeps| == |oldWaiters| == |body| && ListsOk(oldDeps, oldWaiters, |body|) && oldDeps[i] == []
    ensures |deps| == |waiters| == |body| && ListsOk(deps, waiters, |body|)
    ensures deps[i] == Named(byId, body[i].deps) && forall k :: 0 <= k < |body| && k != i ==> deps[k] == oldDeps[k]
  {
    hide ListsOk;
    var n, op := |body|, body[i];
    deps, waiters := oldDeps, oldWaiters;
    for j := 0 to |op.deps|
      invariant |deps| == |waiters| == n && ListsOk(deps, waiters, n)
      invariant forall k :: 0 <= k < n && k != i ==> deps[k] == oldDeps[k]
      invariant deps[i] == Named(byId, op.deps[..j])
    {
      assert op.deps[..j + 1][..j] == op.deps[..j];
      if op.deps[j] in byId {
        var at := byId[op.deps[j]];
        IndexInBody(byId, body, op.deps[j]);
        ListsAppend(deps, waiters, n, at, i);
        deps := Append(deps, i, at);
        waiters := Append(waiters, at, i);
      }
    }
    assert op.deps[..|op.deps|] == op.deps;
  }

  lemma {:induction false} IndexInBody(byId: map<string, nat>, body: seq<Op>, id: string)
    requires IndexesIds(byId, body) && id in byId
    ensures byId[id] < |body|
  {
  }

  method NewDepGraph(body: seq<Op>) returns (g: DepGraph)
    ensures GraphOf(g, body)
  {
    hide ListsOk, IndexesIds, Named;
    var n := |body|;
    var byId := IndexIds(body);
    ListsEmpty(n);
    var deps := seq(n, _ => []);
    var waiters := seq(n, _ => []);
    for i := 0 to n
      invariant |deps| == |waiters| == n && ListsOk(deps, waiters, n)
      invariant forall k :: 0 <= k < n ==> deps[k] == if k < i then Named(byId, body[k].deps) else []
    {
      deps, waiters := AddDeps(body, i, byId, deps, waiters);
    }
    g := DepGraph(byId, deps, waiters);
  }
}
