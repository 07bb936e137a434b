/** The level computations of api/apply_levels.go, on top of the component
    pass. */
module ApplyLevels {
  import opened Walks
  import opened Levels
  import opened LevelGraphs
  import opened Components
  import opened Ops
  import opened DepGraphs

  /** The constraint system of a body with a chosen set of watches. */
  ghost function SystemOf(g: DepGraph, body: seq<Op>, ws: set<WatchPair>): Constraints {
    Constraints(Classes(body), DepEdges(g), ws)
  }

  ghost predicate AllSameClass(elev: seq<bool>, watches: seq<WatchPair>) {
    forall k :: 0 <= k < |watches| ==> SameClass(elev, watches[k])
  }

  method WithWatches(lg: LevelGraph, watches: seq<WatchPair>) returns (out: LevelGraph)
    requires lg.Valid() && AllSameClass(lg.elev, watches)
    ensures fresh(out) && out.Valid() && out.pairs == multiset(watches)
    ensures out.elev == lg.elev && out.waiters == lg.waiters && out.incoming == lg.incoming
    ensures out.seen == lg.seen && out.back == lg.back
  {
    out := new LevelGraph(lg.elev, lg.waiters, lg.incoming, lg.seen, lg.back);
    for k := 0 to |watches|
      invariant out.Valid() && out.pairs == multiset(watches[..k])
    {
      assert watches[..k + 1] == watches[..k] + [watches[k]];
      out.AddWatch(watches[k]);
    }
    assert watches[..|watches|] == watches;
  }

  method NewLevelGraph(g: DepGraph, body: seq<Op>, watches: seq<WatchPair>) returns (lg: LevelGraph)
    requires GraphOk(g, |body|) && AllSameClass(Classes(body), watches)
    ensures fresh(lg) && fresh(lg.seen) && fresh(lg.back) && lg.Valid() && lg.ScratchValid()
    ensures lg.elev == Classes(body) && lg.waiters == g.waiters && lg.incoming == g.deps
    ensures lg.pairs == multiset(watches) && lg.Value() == SystemOf(g, body, Members(watches))
  {
    GraphTransposed(g, |body|);
    var seen := new PathMarks(|body|);
    var back := new PathMarks(|body|);
    var bare := new LevelGraph(Classes(body), g.waiters, g.deps, seen, back);
    lg := WithWatches(bare, watches);
    assert (set p | p in multiset(watches)) == Members(watches);
  }

  method StrongComponents(lg: LevelGraph) returns (comp: seq<int>, count: int)
    requires lg.Valid()
    ensures ComponentNumbers(AllEdges(lg.Value()), |lg.elev|, comp, count)
  {
    hide Inv, After, LevelGraph.Valid;
    var n := |lg.elev|;
    var t := new Tarjan(lg);
    InvLength(t.Edges(), n, t.Now(), {});
    for i := 0 to n
      invariant t.Ready({}) && |t.index| == n && forall v :: 0 <= v < i ==> Visited(t.Now(), v)
    {
      if t.index[i] < 0 {
        ghost var before := t.Now();
        t.Visit(i, {});
        AfterVisits(t.Edges(), before, t.Now(), i);
        InvLength(t.Edges(), n, t.Now(), {});
      }
    }
    AllDone(t.Edges(), n, t.Now());
    return t.comp, t.count;
  }

  /** c is the number of a component with a cross-class edge inside. */
  ghost predicate HoldsCrossEdge(elev: seq<bool>, e: Edges, comp: seq<int>, c: int) {
    exists u, v :: (u, v) in e && Crosses(elev, u, v) && u < |comp| && v < |comp| && comp[u] == c && comp[v] == c
  }

  /** Edge u -> v stays in one component exactly when v reaches back. */
  lemma {:induction false} EdgeInComponent(e: Edges, n: nat, comp: seq<int>, count: int, u: nat, v: nat)
    requires InRange(e, n) && ComponentNumbers(e, n, comp, count) && (u, v) in e
    ensures u < n && v < n && (comp[u] == comp[v] <==> Reach(e, v, u))
  {
    ReachEdge(e, u, v);
  }

  /** No edge leaving an op below limit crosses the classes inside one
      component. */
  ghost predicate CleanBelow(elev: seq<bool>, e: Edges, comp: seq<int>, limit: nat) {
    forall u: nat, v: nat :: (u, v) in e && u < limit && Crosses(elev, u, v) && u < |comp| && v < |comp| ==>
      comp[u] != comp[v]
  }

  lemma {:induction false} CleanDecides(elev: seq<bool>, e: Edges, comp: seq<int>, count: int, bad: int)
    requires InRange(e, |elev|) && ComponentNumbers(e, |elev|, comp, count)
    requires if bad >= 0 then HoldsCrossEdge(elev, e, comp, bad) else CleanBelow(elev, e, comp, |elev|)
    ensures bad < 0 <==> NoCross(elev, e)
  {
    if bad >= 0 {
      var u, v :| (u, v) in e && Crosses(elev, u, v) && u < |comp| && v < |comp| && comp[u] == bad && comp[v] == bad;
      EdgeInComponent(e, |elev|, comp, count, u, v);
    } else {
      forall u: nat, v: nat | (u, v) in e && Crosses(elev, u, v)
        ensures !Reach(e, v, u)
      {
        EdgeInComponent(e, |elev|, comp, count, u, v);
      }
    }
  }

  ghost predicate ScanState(elev: seq<bool>, e: Edges, comp: seq<int>, limit: nat, bad: int) {
    if bad >= 0 then HoldsCrossEdge(elev, e, comp, bad) else bad == -1 && CleanBelow(elev, e, comp, limit)
  }

  lemma {:induction false} ScanFound(elev: seq<bool>, e: Edges, comp: seq<int>, limit: nat, u: nat, v: nat)
    requires (u, v) in e && u < |elev| && v < |elev| && |comp| == |elev| && elev[u] != elev[v]
    requires comp[u] == comp[v] && comp[u] >= 0
    ensures ScanState(elev, e, comp, limit, comp[u])
  {
    assert Crosses(elev, u, v);
  }

  lemma {:induction false} ScanNext(elev: seq<bool>, e: Edges, comp: seq<int>, u: nat, out: seq<nat>, bad: int)
    requires |comp| == |elev| && u < |elev| && ScanState(elev, e, comp, u, bad)
    requires forall v: nat :: (u, v) in e ==> v in out && v < |elev|
    requires forall j :: 0 <= j < |out| ==> out[j] < |elev|
    requires bad < 0 ==> forall j :: 0 <= j < |out| && elev[u] != elev[out[j]] ==> comp[u] != comp[out[j]]
    ensures ScanState(elev, e, comp, u + 1, bad)
  {
  }

  method ScanOp(lg: LevelGraph, comp: seq<int>, u: nat, was: int) returns (bad: int)
    requires lg.Valid() && |comp| == |lg.elev| && u < |lg.elev| && forall i :: 0 <= i < |comp| ==> comp[i] >= 0
    requires ScanState(lg.elev, AllEdges(lg.Value()), comp, u, was)
    ensures ScanState(lg.elev, AllEdges(lg.Value()), comp, u + 1, bad)
  {
    hide ScanState;
    ghost var e := AllEdges(lg.Value());
    lg.OutEdges(u);
    hide AllEdges, LevelGraph.Value, LevelGraph.Valid;
    var out := lg.Out(u);
    bad := was;
    for k := 0 to |out|
      invariant ScanState(lg.elev, e, comp, u, bad)
      invariant bad < 0 ==> forall j :: 0 <= j < k && lg.elev[u] != lg.elev[out[j]] ==> comp[u] != comp[out[j]]
    {
      if bad < 0 && comp[u] == comp[out[k]] && lg.elev[u] != lg.elev[out[k]] {
        ScanFound(lg.elev, e, comp, u, u, out[k]);
        bad := comp[u];
      }
    }
    ScanNext(lg.elev, e, comp, u, out, bad);
  }

  /** Whether the levels can meet every rule, and otherwise a component
      holding a cross-class edge. */
  method WatchesSatisfiable(lg: LevelGraph) returns (bad: int, ok: bool)
    requires lg.Valid()
    ensures ok <==> NoCross(lg.elev, AllEdges(lg.Value()))
    ensures ok ==> bad == -1
    ensures !ok ==> exists comp, count :: ComponentNumbers(AllEdges(lg.Value()), |lg.elev|, comp, count) &&
                                          HoldsCrossEdge(lg.elev, AllEdges(lg.Value()), comp, bad)
  {
    EdgesInRange(lg);
    var comp, count := StrongComponents(lg);
    bad := -1;
    for u := 0 to |lg.elev|
      invariant ScanState(lg.elev, AllEdges(lg.Value()), comp, u, bad)
    {
      bad := ScanOp(lg, comp, u, bad);
    }
    CleanDecides(lg.elev, AllEdges(lg.Value()), comp, count, bad);
    ok := bad < 0;
  }

  /** The step of one level pair an edge u -> v asks for. */
  function Step(elev: seq<bool>, start: bool, u: nat, v: nat): int
    requires u < |elev| && v < |elev|
  {
    Half(elev, start, u) * (1 - Half(elev, start, v))
  }

  /** x never exceeds what any valid assignment gives the component. */
  ghost predicate AtMostValid(g: Constraints, start: bool, comp: seq<int>, x: seq<int>)
    requires |comp| == |g.elev| && forall i :: 0 <= i < |comp| ==> 0 <= comp[i] < |x|
  {
    forall level, i :: ValidLevels(g, start, level) && 0 <= i < |comp| ==>
      2 * x[comp[i]] + Half(g.elev, start, i) <= level[i]
  }

  /** Edge u -> v is honoured across components. */
  ghost predicate Honoured(elev: seq<bool>, start: bool, comp: seq<int>, x: seq<int>, u: nat, v: nat)
    requires |comp| == |elev| && forall i :: 0 <= i < |comp| ==> 0 <= comp[i] < |x|
    requires u < |elev| && v < |elev|
  {
    comp[u] != comp[v] ==> x[comp[v]] >= x[comp[u]] + Step(elev, start, u, v)
  }

  /** The least level of u pushes v's whole component up. */
  lemma {:induction false} RelaxAtMostValidAt(g: Constraints, start: bool, comp: seq<int>, count: int, x: seq<int>,
                                              u: nat, v: nat,
                           level: seq<int>, j: nat)
    requires Wf(g) && ComponentNumbers(AllEdges(g), |g.elev|, comp, count) && |x| == count
    requires (u, v) in AllEdges(g) && u < |g.elev| && v < |g.elev| && j < |g.elev| && comp[j] == comp[v]
    requires ValidLevels(g, start, level) && 2 * x[comp[u]] + Half(g.elev, start, u) <= level[u]
    ensures 2 * (x[comp[u]] + Step(g.elev, start, u, v)) + Half(g.elev, start, j) <= level[j]
  {
    EqualNumbers(AllEdges(g), |g.elev|, comp, count, v, j);
    hide ComponentNumbers, AllEdges, Wf;
    LevelsRise(g, start, level, v, j);
    LevelsRise(g, start, level, j, v);
    EdgeRises(g, level, u, v);
    hide WatchesLevel, DepsRise;
  }

  lemma {:induction false} EqualNumbers(e: Edges, n: nat, comp: seq<int>, count: int, i: nat, j: nat)
    requires ComponentNumbers(e, n, comp, count) && i < n && j < n && comp[i] == comp[j]
    ensures Reach(e, i, j) && Reach(e, j, i)
  {
  }

  lemma {:induction false} RelaxAtMostValid(g: Constraints, start: bool, comp: seq<int>, count: int, x: seq<int>,
                                            u: nat, v: nat)
    requires Wf(g) && ComponentNumbers(AllEdges(g), |g.elev|, comp, count) && |x| == count
    requires (u, v) in AllEdges(g) && u < |g.elev| && v < |g.elev|
    requires AtMostValid(g, start, comp, x)
    ensures AtMostValid(g, start, comp, x[comp[v] := Max(x[comp[v]], x[comp[u]] + Step(g.elev, start, u, v))])
  {
    var y := x[comp[v] := Max(x[comp[v]], x[comp[u]] + Step(g.elev, start, u, v))];
    forall level, i | ValidLevels(g, start, level) && 0 <= i < |comp|
      ensures 2 * y[comp[i]] + Half(g.elev, start, i) <= level[i]
    {
      if comp[i] == comp[v] {
        RelaxAtMostValidAt(g, start, comp, count, x, u, v, level, i);
      }
    }
  }

  function Max(a: int, b: int): int {
    if a >= b then a else b
  }

  /** x as far as it has been computed: every edge leaving a component of
      number at least done is honoured. */
  ghost predicate HonouredFrom(elev: seq<bool>, e: Edges, start: bool, comp: seq<int>, x: seq<int>, done: int)
    requires |comp| == |elev| && forall i :: 0 <= i < |comp| ==> 0 <= comp[i] < |x|
  {
    forall u: nat, v: nat :: (u, v) in e && u < |elev| && v < |elev| && comp[u] >= done ==>
      Honoured(elev, start, comp, x, u, v)
  }

  ghost predicate Partial(g: Constraints, start: bool, comp: seq<int>, count: int, x: seq<int>, done: int) {
    && |x| == count && (forall c :: 0 <= c < count ==> x[c] >= 0)
    && ComponentNumbers(AllEdges(g), |g.elev|, comp, count)
    && AtMostValid(g, start, comp, x)
    && HonouredFrom(g.elev, AllEdges(g), start, comp, x, done)
  }

  lemma {:induction false} PartialStart(g: Constraints, start: bool, comp: seq<int>, count: int)
    requires ComponentNumbers(AllEdges(g), |g.elev|, comp, count) && count >= 0
    ensures Partial(g, start, comp, count, seq(count, _ => 0), count)
  {
    forall level, i | ValidLevels(g, start, level) && 0 <= i < |comp|
      ensures Half(g.elev, start, i) <= level[i]
    {
      assert RightParity(g.elev, start, level);
    }
  }

  function Relaxed(elev: seq<bool>, start: bool, comp: seq<int>, x: seq<int>, u: nat, v: nat): seq<int>
    requires |comp| == |elev| && u < |elev| && v < |elev| && 0 <= comp[u] < |x| && 0 <= comp[v] < |x|
  {
    if comp[v] == comp[u] then x
    else x[comp[v] := Max(x[comp[v]], x[comp[u]] + Step(elev, start, u, v))]
  }

  lemma {:induction false} RelaxedPartial(g: Constraints, start: bool, comp: seq<int>, count: int, x: seq<int>,
                                          done: int, u: nat, v: nat)
    requires Wf(g) && Partial(g, start, comp, count, x, done)
    requires (u, v) in AllEdges(g) && u < |g.elev| && v < |g.elev| && comp[u] < done
    ensures Partial(g, start, comp, count, Relaxed(g.elev, start, comp, x, u, v), done)
    ensures Honoured(g.elev, start, comp, Relaxed(g.elev, start, comp, x, u, v), u, v)
    ensures Relaxed(g.elev, start, comp, x, u, v)[comp[u]] == x[comp[u]]
    ensures Raised(x, Relaxed(g.elev, start, comp, x, u, v), comp[u])
  {
    var y := Relaxed(g.elev, start, comp, x, u, v);
    if comp[v] != comp[u] {
      RelaxAtMostValid(g, start, comp, count, x, u, v);
      assert comp[v] < comp[u];
      hide AtMostValid;
      forall a: nat, b: nat | (a, b) in AllEdges(g) && a < |g.elev| && b < |g.elev| && comp[a] >= done
        ensures Honoured(g.elev, start, comp, y, a, b)
      {
        assert Honoured(g.elev, start, comp, x, a, b);
      }
    }
  }

  /** y is x with components below c raised at most. */
  ghost predicate Raised(x: seq<int>, y: seq<int>, c: int) {
    |y| == |x| && forall i :: 0 <= i < |x| ==> x[i] <= y[i] && (i >= c ==> x[i] == y[i])
  }

  lemma {:induction false} HonouredRaised(elev: seq<bool>, start: bool, comp: seq<int>, x: seq<int>, y: seq<int>,
                                          u: nat, v: nat)
    requires |comp| == |elev| && forall i :: 0 <= i < |comp| ==> 0 <= comp[i] < |x|
    requires u < |elev| && v < |elev| && Raised(x, y, comp[u]) && Honoured(elev, start, comp, x, u, v)
    ensures Honoured(elev, start, comp, y, u, v)
  {
  }

  ghost predicate OutHonoured(elev: seq<bool>, e: Edges, start: bool, comp: seq<int>, x: seq<int>, u: nat)
    requires |comp| == |elev| && (forall i :: 0 <= i < |comp| ==> 0 <= comp[i] < |x|) && u < |elev|
  {
    forall v: nat :: (u, v) in e && v < |elev| ==> Honoured(elev, start, comp, x, u, v)
  }

  lemma {:induction false} OutHonouredRaised(elev: seq<bool>, e: Edges, start: bool, comp: seq<int>, x: seq<int>,
                                             y: seq<int>, u: nat)
    requires |comp| == |elev| && forall i :: 0 <= i < |comp| ==> 0 <= comp[i] < |x|
    requires u < |elev| && Raised(x, y, comp[u]) && OutHonoured(elev, e, start, comp, x, u)
    ensures OutHonoured(elev, e, start, comp, y, u)
  {
    forall v: nat | (u, v) in e && v < |elev|
      ensures Honoured(elev, start, comp, y, u, v)
    {
      HonouredRaised(elev, start, comp, x, y, u, v);
    }
  }

  lemma {:induction false} PartialFacts(g: Constraints, start: bool, comp: seq<int>, count: int, x: seq<int>, done: int)
    requires Partial(g, start, comp, count, x, done)
    ensures |x| == count && |comp| == |g.elev| && forall i :: 0 <= i < |comp| ==> 0 <= comp[i] < count
  {
  }

  method RelaxFrom(lg: LevelGraph, start: bool, comp: seq<int>, ghost count: int, was: seq<int>, u: nat)
    returns (x: seq<int>)
    requires lg.Valid() && u < |lg.elev| && |comp| == |lg.elev| == |lg.Value().elev|
    requires |was| == count && forall i :: 0 <= i < |comp| ==> 0 <= comp[i] < count
    requires Partial(lg.Value(), start, comp, count, was, comp[u] + 1)
    ensures Partial(lg.Value(), start, comp, count, x, comp[u] + 1)
    ensures Raised(was, x, comp[u])
    ensures OutHonoured(lg.elev, AllEdges(lg.Value()), start, comp, x, u)
  {
    hide Partial, Honoured, Relaxed;
    ghost var g := lg.Value();
    EdgesInRange(lg);
    lg.OutEdges(u);
    hide AllEdges;
    var out := lg.Out(u);
    x := was;
    for k := 0 to |out|
      invariant |x| == count && Partial(g, start, comp, count, x, comp[u] + 1) && Raised(was, x, comp[u])
      invariant forall j :: 0 <= j < k ==> Honoured(lg.elev, start, comp, x, u, out[j])
    {
      ghost var before := x;
      RelaxedPartial(g, start, comp, count, x, comp[u] + 1, u, out[k]);
      x := Relaxed(lg.elev, start, comp, x, u, out[k]);
      forall j | 0 <= j < k
        ensures Honoured(lg.elev, start, comp, x, u, out[j])
      {
        HonouredRaised(lg.elev, start, comp, before, x, u, out[j]);
      }
    }
  }

  ghost predicate Grouped(comp: seq<int>, members: seq<seq<nat>>) {
    && (forall c, k :: 0 <= c < |members| && 0 <= k < |members[c]| ==>
         members[c][k] < |comp| && comp[members[c][k]] == c)
    && (forall i :: 0 <= i < |comp| && 0 <= comp[i] < |members| ==> i in members[comp[i]])
  }

  method GroupMembers(comp: seq<int>, count: nat) returns (members: seq<seq<nat>>)
    requires forall i :: 0 <= i < |comp| ==> 0 <= comp[i] < count
    ensures |members| == count && Grouped(comp, members)
  {
    members := seq(count, _ => []);
    for i := 0 to |comp|
      invariant |members| == count && Grouped(comp[..i], members)
    {
      members := members[comp[i] := members[comp[i]] + [i]];
    }
    assert comp[..|comp|] == comp;
  }

  /** With the last component settled every edge is honoured everywhere. */
  lemma {:induction false} PartialNext(g: Constraints, start: bool, comp: seq<int>, count: int, x: seq<int>, c: int)
    requires Partial(g, start, comp, count, x, c + 1)
    requires |comp| == |g.elev| && |x| == count && forall i :: 0 <= i < |comp| ==> 0 <= comp[i] < count
    requires forall u: nat :: u < |g.elev| && comp[u] == c ==> OutHonoured(g.elev, AllEdges(g), start, comp, x, u)
    ensures Partial(g, start, comp, count, x, c)
  {
    forall u: nat, v: nat | (u, v) in AllEdges(g) && u < |g.elev| && v < |g.elev| && comp[u] >= c
      ensures Honoured(g.elev, start, comp, x, u, v)
    {
      if comp[u] == c {
        assert OutHonoured(g.elev, AllEdges(g), start, comp, x, u);
      }
    }
  }

  /** The assignment the component values stand for. */
  ghost function Spread(elev: seq<bool>, start: bool, comp: seq<int>, x: seq<int>): seq<int>
    requires |comp| == |elev| && forall i :: 0 <= i < |comp| ==> 0 <= comp[i] < |x|
  {
    seq(|elev|, i requires 0 <= i < |elev| => 2 * x[comp[i]] + Half(elev, start, i))
  }

  lemma {:induction false} SpreadRises(g: Constraints, start: bool, comp: seq<int>, count: int, x: seq<int>, u: nat,
                                       v: nat)
    requires Wf(g) && NoCross(g.elev, AllEdges(g)) && Partial(g, start, comp, count, x, 0)
    requires |comp| == |g.elev| && |x| == count && forall i :: 0 <= i < |comp| ==> 0 <= comp[i] < count
    requires (u, v) in AllEdges(g) && u < |g.elev| && v < |g.elev|
    ensures Spread(g.elev, start, comp, x)[u] <= Spread(g.elev, start, comp, x)[v]
    ensures g.elev[u] != g.elev[v] ==> Spread(g.elev, start, comp, x)[u] < Spread(g.elev, start, comp, x)[v]
  {
    AllEdgesInRange(g);
    EdgeInComponent(AllEdges(g), |g.elev|, comp, count, u, v);
    assert Honoured(g.elev, start, comp, x, u, v);
  }

  lemma {:induction false} SpreadDeps(g: Constraints, start: bool, comp: seq<int>, count: int, x: seq<int>)
    requires Wf(g) && NoCross(g.elev, AllEdges(g)) && Partial(g, start, comp, count, x, 0)
    requires |comp| == |g.elev| && |x| == count && forall i :: 0 <= i < |comp| ==> 0 <= comp[i] < count
    ensures DepsRise(g.elev, g.dep, Spread(g.elev, start, comp, x))
    ensures WatchesLevel(g.ws, Spread(g.elev, start, comp, x))
  {
    hide Partial, NoCross;
    var level := Spread(g.elev, start, comp, x);
    forall u: nat, v: nat | (u, v) in g.dep && u < |level| && v < |level|
      ensures level[u] <= level[v] && (g.elev[u] != g.elev[v] ==> level[u] < level[v])
    {
      SpreadRises(g, start, comp, count, x, u, v);
    }
    forall p | p in g.ws && p.gated < |level| && p.watched < |level|
      ensures level[p.gated] == level[p.watched]
    {
      WatchEdgeIff(g.ws, p.gated, p.watched);
      WatchEdgeIff(g.ws, p.watched, p.gated);
      SpreadRises(g, start, comp, count, x, p.gated, p.watched);
      SpreadRises(g, start, comp, count, x, p.watched, p.gated);
    }
  }

  lemma {:induction false} SpreadParity(elev: seq<bool>, start: bool, comp: seq<int>, x: seq<int>)
    requires |comp| == |elev| && forall i :: 0 <= i < |comp| ==> 0 <= comp[i] < |x|
    requires forall c :: 0 <= c < |x| ==> x[c] >= 0
    ensures RightParity(elev, start, Spread(elev, start, comp, x))
  {
  }

  /** The pointwise-least valid assignment. */
  ghost predicate LeastLevels(g: Constraints, start: bool, level: seq<int>) {
    && ValidLevels(g, start, level)
    && forall other, i :: ValidLevels(g, start, other) && 0 <= i < |level| ==> level[i] <= other[i]
  }

  lemma {:induction false} SpreadLeast(g: Constraints, start: bool, comp: seq<int>, count: int, x: seq<int>)
    requires Wf(g) && NoCross(g.elev, AllEdges(g)) && Partial(g, start, comp, count, x, 0)
    requires |comp| == |g.elev| && |x| == count && forall i :: 0 <= i < |comp| ==> 0 <= comp[i] < count
    ensures LeastLevels(g, start, Spread(g.elev, start, comp, x))
  {
    SpreadDeps(g, start, comp, count, x);
    SpreadParity(g.elev, start, comp, x);
    hide DepsRise, WatchesLevel, RightParity, HonouredFrom, ComponentNumbers, NoCross;
    forall other, i | ValidLevels(g, start, other) && 0 <= i < |g.elev|
      ensures Spread(g.elev, start, comp, x)[i] <= other[i]
    {
    }
  }

  method SettleComponent(lg: LevelGraph, start: bool, comp: seq<int>, ghost count: int, was: seq<int>,
                         c: nat, members: seq<nat>) returns (x: seq<int>)
    requires lg.Valid() && |comp| == |lg.elev| == |lg.Value().elev|
    requires |was| == count && forall i :: 0 <= i < |comp| ==> 0 <= comp[i] < count
    requires Partial(lg.Value(), start, comp, count, was, c + 1)
    requires forall k :: 0 <= k < |members| ==> members[k] < |comp| && comp[members[k]] == c
    requires forall i :: 0 <= i < |comp| && comp[i] == c ==> i in members
    ensures |x| == count && Partial(lg.Value(), start, comp, count, x, c)
  {
    hide NoCross, Partial, OutHonoured, LevelGraph.Valid, AllEdges;
    ghost var sys := lg.Value();
    x := was;
    for k := 0 to |members|
      invariant |x| == count && Partial(sys, start, comp, count, x, c + 1)
      invariant forall j :: 0 <= j < k ==> OutHonoured(lg.elev, AllEdges(sys), start, comp, x, members[j])
    {
      ghost var before := x;
      x := RelaxFrom(lg, start, comp, count, x, members[k]);
      PartialFacts(sys, start, comp, count, x, c + 1);
      forall j | 0 <= j < k
        ensures OutHonoured(lg.elev, AllEdges(sys), start, comp, x, members[j])
      {
        OutHonouredRaised(lg.elev, AllEdges(sys), start, comp, before, x, members[j]);
      }
    }
    PartialNext(sys, start, comp, count, x, c);
  }

  /** Every op's chunk level: the least assignment that honours the
      dependencies and the kept watches with class start at level 0. */
  method ChunkLevels(g: DepGraph, body: seq<Op>, start: bool, kept: seq<WatchPair>) returns (level: seq<int>)
    requires GraphOk(g, |body|) && AllSameClass(Classes(body), kept)
    requires NoCross(Classes(body), AllEdges(SystemOf(g, body, Members(kept))))
    ensures LeastLevels(SystemOf(g, body, Members(kept)), start, level)
  {
    hide NoCross, Partial, LeastLevels, GraphOk, LevelGraph.Valid, LevelGraph.ScratchValid, AllEdges;
    var lg := NewLevelGraph(g, body, kept);
    ghost var sys := lg.Value();
    EdgesInRange(lg);
    var comp, count := StrongComponents(lg);
    ComponentFacts(AllEdges(sys), |lg.elev|, comp, count);
    PartialStart(sys, start, comp, count);
    hide ComponentNumbers;
    var groups := GroupMembers(comp, count);
    var x := seq(count, _ => 0);
    for c := count downto 0
      invariant lg.Valid() && lg.Value() == sys
      invariant |x| == count && Partial(sys, start, comp, count, x, c)
    {
      x := SettleComponent(lg, start, comp, count, x, c, groups[c]);
    }
    level := seq(|body|, i requires 0 <= i < |body| => 2 * x[comp[i]] + Half(lg.elev, start, i));
    assert level == Spread(lg.elev, start, comp, x);
    SpreadLeast(sys, start, comp, count, x);
  }

  lemma {:induction false} ComponentFacts(e: Edges, n: nat, comp: seq<int>, count: int)
    requires ComponentNumbers(e, n, comp, count)
    ensures count >= 0 && |comp| == n && forall i :: 0 <= i < |comp| ==> 0 <= comp[i] < count
  {
  }
}
