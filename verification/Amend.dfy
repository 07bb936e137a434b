/** Amending a registered resource: resource/amend.go. */
module Amend {
  import opened Walks

  type Ids = set<(string, string)>

  datatype Draft = Draft(id: string, payload: string)

  datatype Amended = Amended | NotRegistered | DependsOnItself | ClosesCycle(dep: string) | SinkRefused

  /** The dependency edges of the registered resources, dependent -> dep. */
  ghost function DependsEdges(registered: map<string, set<string>>): Ids {
    set x, y | x in registered && y in registered[x] :: (x, y)
  }

  /** The edges one amendment adds. */
  ghost function Added(id: string, deps: seq<string>): Ids {
    set d | d in deps :: (id, d)
  }

  /** target is reached from start along at least one edge. */
  ghost predicate LeadsTo(e: Ids, start: string, target: string) {
    exists u :: Reach(e, start, u) && (u, target) in e
  }

  lemma {:induction false} LeadsToIff(e: Ids, start: string, target: string)
    requires start != target
    ensures LeadsTo(e, start, target) <==> Reach(e, start, target)
  {
    if LeadsTo(e, start, target) {
      var u :| Reach(e, start, u) && (u, target) in e;
      ReachThenEdge(e, start, u, target);
    }
    if Reach(e, start, target) {
      var u := ReachLast(e, start, target);
    }
  }

  /** No new dep is the resource itself or reaches it. */
  ghost predicate Amendable(e: Ids, id: string, deps: seq<string>) {
    forall d :: d in deps ==> !Reach(e, d, id)
  }

  lemma {:induction false} AddedNext(id: string, deps: seq<string>)
    requires deps != []
    ensures Added(id, deps) == Added(id, deps[..|deps| - 1]) + {(id, deps[|deps| - 1])}
  {
    assert deps == deps[..|deps| - 1] + [deps[|deps| - 1]];
  }

  /** Edges out of id help nothing to reach id. */
  lemma {:induction false} StillUnreached(e: Ids, id: string, deps: seq<string>, d: string)
    requires !Reach(e, d, id)
    ensures !Reach(e + Added(id, deps), d, id)
    decreases |deps|
  {
    if deps == [] {
      assert e + Added(id, deps) == e;
    } else {
      var rest := deps[..|deps| - 1];
      StillUnreached(e, id, rest, d);
      AddedNext(id, deps);
      assert e + Added(id, deps) == e + Added(id, rest) + {(id, deps[|deps| - 1])};
      if Reach(e + Added(id, deps), d, id) {
        ReachWithEdge(e + Added(id, rest), id, deps[|deps| - 1], d, id);
      }
    }
  }

  /** However many deps are added at once, an acyclic graph stays acyclic
      exactly when each of them on its own leads nowhere near the resource. */
  lemma {:induction false} AmendKeepsAcyclic(e: Ids, id: string, deps: seq<string>)
    requires Acyclic(e)
    ensures Acyclic(e + Added(id, deps)) <==> Amendable(e, id, deps)
    decreases |deps|
  {
    if Amendable(e, id, deps) {
      AmendAcyclic(e, id, deps);
    } else {
      var d :| d in deps && Reach(e, d, id);
      var all := e + Added(id, deps);
      ReachMono(e, all, d, id);
      assert (id, d) in all;
    }
  }

  lemma {:induction false} AmendAcyclic(e: Ids, id: string, deps: seq<string>)
    requires Acyclic(e) && Amendable(e, id, deps)
    ensures Acyclic(e + Added(id, deps))
    decreases |deps|
  {
    if deps == [] {
      assert e + Added(id, deps) == e;
    } else {
      var rest, last := deps[..|deps| - 1], deps[|deps| - 1];
      assert forall d :: d in rest ==> d in deps;
      AmendAcyclic(e, id, rest);
      AddedNext(id, deps);
      assert e + Added(id, deps) == e + Added(id, rest) + {(id, last)};
      StillUnreached(e, id, rest, last);
      AcyclicWithEdge(e + Added(id, rest), id, last);
    }
  }

  class Repository {
    var registered: map<string, set<string>>
    var drafts: map<string, Draft>

    ghost function Edges(): Ids
      reads this
    {
      DependsEdges(registered)
    }

    /** Every ID the walk can meet. */
    ghost function Universe(start: string): set<string>
      reads this
    {
      registered.Keys + {start} + set x, y | x in registered && y in registered[x] :: y
    }

    /** The walk so far: what is seen or waiting is reached, and what is seen
        leads to nothing else and not to target. */
    ghost predicate Walking(start: string, target: string, seen: set<string>, stack: seq<string>)
      reads this
    {
      && (start in seen || start in stack)
      && (forall v :: v in seen || v in stack ==> Reach(Edges(), start, v) && v in Universe(start))
      && (forall u, v :: u in seen && (u, v) in Edges() ==> v != target && (v in seen || v in stack))
    }

    /** reaches: a depth-first walk over the registered edges. */
    method Reaches(start: string, target: string) returns (found: bool)
      ensures found <==> LeadsTo(Edges(), start, target)
    {
      hide Walking, Universe, LeadsTo, Reach;
      var seen: set<string>, stack := {}, [start];
      WalkStart(start, target);
      while |stack| > 0
        invariant Walking(start, target, seen, stack)
        decreases |Universe(start) - seen|, |stack|
      {
        var id := stack[|stack| - 1];
        var rest := stack[..|stack| - 1];
        assert stack == rest + [id];
        WalkFacts(start, target, seen, rest, id);
        if id in seen {
          stack := rest;
          continue;
        }
        SeenGrows(Universe(start), seen, id);
        var more;
        found, more := PushDeps(start, target, id, rest);
        if found {
          return;
        }
        WalkStep(start, target, seen, rest, id, more);
        seen := seen + {id};
        stack := more;
      }
      WalkEnd(start, target, seen);
      found := false;
    }

    lemma {:induction false} WalkStart(start: string, target: string)
      ensures Walking(start, target, {}, [start])
    {
      ReachRefl(Edges(), start);
    }

    lemma {:induction false} WalkFacts(start: string, target: string, seen: set<string>, rest: seq<string>, id: string)
      requires Walking(start, target, seen, rest + [id])
      ensures Reach(Edges(), start, id) && id in Universe(start)
      ensures forall v :: v in rest ==> Reach(Edges(), start, v) && v in Universe(start)
      ensures id in seen ==> Walking(start, target, seen, rest)
    {
      assert id in rest + [id];
      assert forall v :: v in rest ==> v in rest + [id];
      assert forall v :: v in rest + [id] ==> v in rest || v == id;
    }

    lemma {:induction false} WalkStep(start: string, target: string, seen: set<string>, rest: seq<string>, id: string,
                                      more: seq<string>)
      requires Walking(start, target, seen, rest + [id])
      requires forall v :: v in rest ==> v in more
      requires forall v :: (id, v) in Edges() ==> v != target && v in more
      requires forall v :: v in more ==> Reach(Edges(), start, v) && v in Universe(start)
      ensures Walking(start, target, seen + {id}, more)
    {
      hide Reach, Universe;
      assert id in rest + [id];
      assert forall v :: v in rest + [id] ==> v in rest || v == id;
    }

    lemma {:induction false} WalkEnd(start: string, target: string, seen: set<string>)
      requires Walking(start, target, seen, [])
      ensures !LeadsTo(Edges(), start, target)
    {
      if LeadsTo(Edges(), start, target) {
        var u :| Reach(Edges(), start, u) && (u, target) in Edges();
        ReachClosed(Edges(), seen, start, u);
      }
    }

    lemma {:induction false} SeenGrows(universe: set<string>, seen: set<string>, id: string)
      requires id in universe && id !in seen
      ensures |universe - (seen + {id})| < |universe - seen|
    {
      assert universe - seen == (universe - (seen + {id})) + {id};
    }

    /** Pushes the deps of one resource, in any order, unless target is one. */
    method PushDeps(ghost start: string, target: string, id: string, stack: seq<string>) returns (found: bool,
                    more: seq<string>)
      requires Reach(Edges(), start, id) && forall v :: v in stack ==> Reach(Edges(), start, v) && v in Universe(start)
      ensures found ==> LeadsTo(Edges(), start, target)
      ensures !found ==> forall v :: v in stack ==> v in more
      ensures !found ==> forall v :: (id, v) in Edges() ==> v != target && v in more
      ensures !found ==> forall v :: v in more ==> Reach(Edges(), start, v) && v in Universe(start)
    {
      found, more := false, stack;
      if id !in registered {
        return;
      }
      var todo := registered[id];
      while todo != {}
        invariant todo <= registered[id] && (forall v :: v in stack ==> v in more)
        invariant forall v :: v in registered[id] && v !in todo ==> v != target && v in more
        invariant forall v :: v in more ==> Reach(Edges(), start, v) && v in Universe(start)
        decreases |todo|
      {
        var dep :| dep in todo;
        assert (id, dep) in Edges();
        if dep == target {
          return true, more;
        }
        ReachThenEdge(Edges(), start, id, dep);
        more := more + [dep];
        todo := todo - {dep};
      }
    }

    /** checkAmendable. */
    method CheckAmendable(id: string, deps: seq<string>) returns (r: Amended)
      ensures r.Amended? <==> id in registered && Amendable(Edges(), id, deps)
      ensures r.NotRegistered? <==> id !in registered
      ensures r.DependsOnItself? ==> id in deps
      ensures r.ClosesCycle? ==> r.dep in deps && Reach(Edges(), r.dep, id)
      ensures !r.SinkRefused?
    {
      if id !in registered {
        return NotRegistered;
      }
      for k := 0 to |deps|
        invariant forall j :: 0 <= j < k ==> deps[j] != id
      {
        if deps[k] == id {
          ReachRefl(Edges(), id);
          return DependsOnItself;
        }
      }
      for k := 0 to |deps|
        invariant forall j :: 0 <= j < k ==> !Reach(Edges(), deps[j], id)
      {
        var reached := Reaches(deps[k], id);
        LeadsToIff(Edges(), deps[k], id);
        if reached {
          return ClosesCycle(deps[k]);
        }
      }
      r := Amended;
    }

    /** AmendRegistered.  sinkAccepts is the record-mode sink's answer, true
        without a sink.  Refused, it changes nothing; accepted, it adds exactly
        the new edges and keeps an acyclic graph acyclic. */
    method AmendRegistered(draft: Draft, deps: seq<string>, sinkAccepts: bool) returns (r: Amended)
      requires Acyclic(Edges())
      modifies this
      ensures r.Amended? <==>
                draft.id in old(registered) && Acyclic(old(Edges()) + Added(draft.id, deps)) && sinkAccepts
      ensures !r.Amended? ==> registered == old(registered) && drafts == old(drafts)
      ensures r.Amended? ==> Edges() == old(Edges()) + Added(draft.id, deps)
      ensures r.Amended? ==> registered.Keys == old(registered).Keys && drafts == old(drafts)[draft.id := draft]
      ensures Acyclic(Edges())
    {
      AmendKeepsAcyclic(Edges(), draft.id, deps);
      r := CheckAmendable(draft.id, deps);
      if !r.Amended? {
        return;
      }
      if !sinkAccepts {
        return SinkRefused;
      }
      registered := registered[draft.id := registered[draft.id] + set d | d in deps];
      drafts := drafts[draft.id := draft];
      EdgesAdded(old(registered), registered, draft.id, deps);
    }
  }

  lemma {:induction false} EdgesAdded(was: map<string, set<string>>, now: map<string, set<string>>, id: string,
                                      deps: seq<string>)
    requires id in was && now == was[id := was[id] + set d | d in deps]
    ensures DependsEdges(now) == DependsEdges(was) + Added(id, deps)
  {
    forall x, y
      ensures (x, y) in DependsEdges(now) <==> (x, y) in DependsEdges(was) + Added(id, deps)
    {
    }
  }
}
