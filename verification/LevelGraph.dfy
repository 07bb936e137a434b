/** The level graph of api/apply_levels.go: fixed dependency lists, a watch map
    edited in place, and the two search scratch areas it shares with the graphs
    derived from it. */
module LevelGraphs {
  import opened Levels

  /** The edges an adjacency list stands for. */
  ghost function ListEdges(adj: seq<seq<nat>>): Edges {
    set u, v | 0 <= u < |adj| && v in adj[u] :: (u, v)
  }

  ghost predicate Bounded(adj: seq<seq<nat>>, n: nat) {
    |adj| == n && forall u :: 0 <= u < n ==> forall v :: v in adj[u] ==> v < n
  }

  /** incoming lists every edge of out by its target. */
  ghost predicate Transposed(out: seq<seq<nat>>, incoming: seq<seq<nat>>) {
    |incoming| == |out| &&
    forall u, v :: 0 <= u < |out| && 0 <= v < |out| ==> (v in out[u] <==> u in incoming[v])
  }

  /** The watch neighbours of u, none for an op without watches. */
  function Neighbours(watch: map<nat, seq<nat>>, u: nat): seq<nat> {
    if u in watch then watch[u] else []
  }

  function Index(s: seq<nat>, v: nat): (at: int)
    ensures v in s <==> 0 <= at
    ensures 0 <= at ==> at < |s| && s[at] == v && v !in s[..at]
    ensures at < 0 ==> at == -1
  {
    if s == [] then -1
    else if s[0] == v then 0
    else
      var rest := Index(s[1..], v);
      assert forall k :: 0 <= k < |s[1..]| ==> s[1..][k] == s[k + 1];
      if rest < 0 then -1 else
        assert s[..rest + 1] == [s[0]] + s[1..][..rest];
        rest + 1
  }

  function Appended(watch: map<nat, seq<nat>>, u: nat, v: nat): map<nat, seq<nat>> {
    watch[u := Neighbours(watch, u) + [v]]
  }

  /** The first copy of v deleted from u's list, if there is one. */
  function Deleted(watch: map<nat, seq<nat>>, u: nat, v: nat): map<nat, seq<nat>> {
    var list := Neighbours(watch, u);
    var at := Index(list, v);
    if at >= 0 then watch[u := list[..at] + list[at + 1..]] else watch
  }

  /** How many copies of the edge u -> v the watch map holds. */
  ghost function Copies(watch: map<nat, seq<nat>>, u: nat, v: nat): nat {
    multiset(Neighbours(watch, u))[v]
  }

  /** The watch map holds both edges of every watch of pairs, once each. */
  ghost predicate Holds(watch: map<nat, seq<nat>>, pairs: multiset<WatchPair>) {
    forall u, v :: HoldsEdge(watch, pairs, u, v)
  }

  ghost predicate HoldsEdge(watch: map<nat, seq<nat>>, pairs: multiset<WatchPair>, u: nat, v: nat) {
    Copies(watch, u, v) == pairs[WatchPair(u, v)] + pairs[WatchPair(v, u)]
  }

  lemma {:induction false} AppendedCopies(watch: map<nat, seq<nat>>, u: nat, v: nat, a: nat, b: nat)
    ensures Copies(Appended(watch, u, v), a, b) == Copies(watch, a, b) + (if a == u && b == v then 1 else 0)
  {
  }

  lemma {:induction false} WithoutOne(list: seq<nat>, at: nat)
    requires at < |list|
    ensures multiset(list) == multiset(list[..at] + list[at + 1..]) + multiset{list[at]}
  {
    assert list == list[..at] + ([list[at]] + list[at + 1..]);
  }

  lemma {:induction false} DeletedCopies(watch: map<nat, seq<nat>>, u: nat, v: nat, a: nat, b: nat)
    requires Copies(watch, u, v) > 0
    ensures Copies(Deleted(watch, u, v), a, b) == Copies(watch, a, b) - (if a == u && b == v then 1 else 0)
  {
    var list := Neighbours(watch, u);
    var at := Index(list, v);
    assert at >= 0;
    WithoutOne(list, at);
  }

  lemma {:induction false} HoldsAppended(watch: map<nat, seq<nat>>, pairs: multiset<WatchPair>, p: WatchPair)
    requires Holds(watch, pairs)
    ensures Holds(Appended(Appended(watch, p.gated, p.watched), p.watched, p.gated), pairs + multiset{p})
  {
    var one := Appended(watch, p.gated, p.watched);
    forall u, v
      ensures HoldsEdge(Appended(one, p.watched, p.gated), pairs + multiset{p}, u, v)
    {
      assert HoldsEdge(watch, pairs, u, v);
      AppendedCopies(watch, p.gated, p.watched, u, v);
      AppendedCopies(one, p.watched, p.gated, u, v);
    }
  }

  lemma {:induction false} HoldsDeleted(watch: map<nat, seq<nat>>, pairs: multiset<WatchPair>, p: WatchPair)
    requires Holds(watch, pairs) && p in pairs
    ensures Holds(Deleted(Deleted(watch, p.gated, p.watched), p.watched, p.gated), pairs - multiset{p})
  {
    var one := Deleted(watch, p.gated, p.watched);
    assert HoldsEdge(watch, pairs, p.gated, p.watched) && HoldsEdge(watch, pairs, p.watched, p.gated);
    DeletedCopies(watch, p.gated, p.watched, p.watched, p.gated);
    forall u, v
      ensures HoldsEdge(Deleted(one, p.watched, p.gated), pairs - multiset{p}, u, v)
    {
      assert HoldsEdge(watch, pairs, u, v);
      DeletedCopies(watch, p.gated, p.watched, u, v);
      DeletedCopies(one, p.watched, p.gated, u, v);
    }
  }

  /** Scratch space of one search over (op, crossed) states, state
      2*op + crossed.  A state is marked when it carries the current stamp, so
      bumping the stamp clears every mark. */
  class PathMarks {
    var mark: seq<int>
    var parent: seq<int>
    var byWatch: seq<bool>
    var stamp: int

    ghost predicate Valid(ops: nat)
      reads this
    {
      && |mark| == 2 * ops && |parent| == 2 * ops && |byWatch| == 2 * ops
      && forall st :: 0 <= st < |mark| ==> mark[st] <= stamp
    }

    constructor (ops: nat)
      ensures Valid(ops)
    {
      mark, parent, byWatch := seq(2 * ops, _ => 0), seq(2 * ops, _ => 0), seq(2 * ops, _ => false);
      stamp := 0;
    }
  }

  class LevelGraph {
    const elev: seq<bool>
    const waiters: seq<seq<nat>>
    const incoming: seq<seq<nat>>
    var watch: map<nat, seq<nat>>
    const seen: PathMarks
    const back: PathMarks

    /** The watches whose edges the map holds, with multiplicity. */
    ghost var pairs: multiset<WatchPair>

    ghost predicate Valid()
      reads this
    {
      && Bounded(waiters, |elev|) && Bounded(incoming, |elev|)
      && Transposed(waiters, incoming)
      && seen != back
      && (forall p :: p in pairs ==> SameClass(elev, p))
      && Holds(watch, pairs)
    }

    ghost predicate ScratchValid()
      reads this, seen, back
    {
      seen.Valid(|elev|) && back.Valid(|elev|)
    }

    /** The constraint system this graph stands for. */
    ghost function Value(): Constraints
      reads this
    {
      Constraints(elev, ListEdges(waiters), set p | p in pairs)
    }

    constructor (elev: seq<bool>, waiters: seq<seq<nat>>, incoming: seq<seq<nat>>, seen: PathMarks, back: PathMarks)
      requires Bounded(waiters, |elev|) && Bounded(incoming, |elev|) && Transposed(waiters, incoming) && seen != back
      ensures Valid() && pairs == multiset{}
      ensures this.elev == elev && this.waiters == waiters && this.incoming == incoming
      ensures this.seen == seen && this.back == back
    {
      this.elev, this.waiters, this.incoming := elev, waiters, incoming;
      this.seen, this.back := seen, back;
      watch := map[];
      pairs := multiset{};
    }

    method AddWatch(p: WatchPair)
      requires Valid() && SameClass(elev, p)
      modifies this
      ensures Valid() && pairs == old(pairs) + multiset{p}
    {
      HoldsAppended(watch, pairs, p);
      watch := Appended(watch, p.gated, p.watched);
      watch := Appended(watch, p.watched, p.gated);
      pairs := pairs + multiset{p};
    }

    /** Removes one copy of each edge of a watch the graph holds. */
    method RemoveWatch(p: WatchPair)
      requires Valid() && p in pairs
      modifies this
      ensures Valid() && pairs == old(pairs) - multiset{p}
    {
      HoldsDeleted(watch, pairs, p);
      watch := Deleted(watch, p.gated, p.watched);
      watch := Deleted(watch, p.watched, p.gated);
      pairs := pairs - multiset{p};
    }

    /** The lists enumerate exactly the edges of the constraint system. */
    lemma {:induction false} EdgeListed(u: nat, v: nat)
      requires Valid()
      ensures (u, v) in AllEdges(Value()) <==> u < |elev| && (v in waiters[u] || v in Neighbours(watch, u))
      ensures (u, v) in AllEdges(Value()) ==> v < |elev|
    {
      var ws := set p | p in pairs;
      WatchEdgeIff(ws, u, v);
      assert HoldsEdge(watch, pairs, u, v);
      assert v in Neighbours(watch, u) <==> Copies(watch, u, v) > 0;
    }

    /** The edges leaving u, dependency edges first. */
    function Out(u: nat): seq<nat>
      requires u < |waiters|
      reads this
    {
      waiters[u] + Neighbours(watch, u)
    }

    lemma {:induction false} OutEdges(u: nat)
      requires Valid() && u < |elev|
      ensures forall v: nat :: (u, v) in AllEdges(Value()) ==> v in Out(u) && v < |elev|
      ensures forall j :: 0 <= j < |Out(u)| ==> Out(u)[j] < |elev| && (u, Out(u)[j]) in AllEdges(Value())
    {
      forall v: nat | (u, v) in AllEdges(Value())
        ensures v in Out(u) && v < |elev|
      {
        EdgeListed(u, v);
      }
      forall j | 0 <= j < |Out(u)|
        ensures Out(u)[j] < |elev| && (u, Out(u)[j]) in AllEdges(Value())
      {
        EdgeListed(u, Out(u)[j]);
      }
    }

    /** The dependency and the watch edges leaving u, one list each. */
    lemma {:induction false} EdgeKinds(u: nat)
      requires Valid() && u < |elev|
      ensures forall j :: 0 <= j < |waiters[u]| ==> waiters[u][j] < |elev| && (u, waiters[u][j]) in Value().dep
      ensures forall j :: 0 <= j < |Neighbours(watch, u)| ==>
                Neighbours(watch, u)[j] < |elev| && (u, Neighbours(watch, u)[j]) in WatchEdges(Value().ws)
      ensures forall v: nat :: (u, v) in AllEdges(Value()) ==> v in waiters[u] || v in Neighbours(watch, u)
    {
      forall j | 0 <= j < |waiters[u]|
        ensures waiters[u][j] < |elev| && (u, waiters[u][j]) in Value().dep
      {
        assert waiters[u][j] in waiters[u];
      }
      forall j | 0 <= j < |Neighbours(watch, u)|
        ensures Neighbours(watch, u)[j] < |elev| && (u, Neighbours(watch, u)[j]) in WatchEdges(Value().ws)
      {
        var v := Neighbours(watch, u)[j];
        assert HoldsEdge(watch, pairs, u, v) && Copies(watch, u, v) > 0;
        WatchEdgeIff(Value().ws, u, v);
      }
      forall v: nat | (u, v) in AllEdges(Value())
        ensures v in waiters[u] || v in Neighbours(watch, u)
      {
        EdgeListed(u, v);
      }
    }

    /** The edges into y, by dependency and by watch. */
    lemma {:induction false} InEdges(y: nat)
      requires Valid() && y < |elev|
      ensures forall j :: 0 <= j < |incoming[y]| ==> incoming[y][j] < |elev| && (incoming[y][j], y) in AllEdges(Value())
      ensures forall j :: 0 <= j < |Neighbours(watch, y)| ==>
                Neighbours(watch, y)[j] < |elev| && (Neighbours(watch, y)[j], y) in AllEdges(Value())
      ensures forall x: nat :: (x, y) in AllEdges(Value()) ==> x in incoming[y] || x in Neighbours(watch, y)
    {
      EdgeKinds(y);
      forall j | 0 <= j < |incoming[y]|
        ensures (incoming[y][j], y) in AllEdges(Value())
      {
        assert incoming[y][j] in incoming[y];
        EdgeListed(incoming[y][j], y);
      }
      forall j | 0 <= j < |Neighbours(watch, y)|
        ensures (Neighbours(watch, y)[j], y) in AllEdges(Value())
      {
        WatchEdgeIff(Value().ws, y, Neighbours(watch, y)[j]);
        WatchEdgeIff(Value().ws, Neighbours(watch, y)[j], y);
      }
      forall x: nat | (x, y) in AllEdges(Value())
        ensures x in incoming[y] || x in Neighbours(watch, y)
      {
        EdgeListed(x, y);
        WatchEdgeIff(Value().ws, x, y);
        assert HoldsEdge(watch, pairs, y, x);
        assert x in Neighbours(watch, y) <==> Copies(watch, y, x) > 0;
      }
    }
  }
}
