/** Tarjan's component pass of api/apply_levels.go.  The fields are those of the
    source's tarjan struct; Snapshot is their value at one moment, on which the
    invariants and the step lemmas are stated. */
module Components {
  import opened Walks
  import opened Levels
  import opened LevelGraphs

  datatype Snapshot = Snapshot(index: seq<int>, low: seq<int>, onStack: seq<bool>, stack: seq<nat>,
                               comp: seq<int>, next: int, count: int)

  ghost predicate Visited(s: Snapshot, v: nat) {
    v < |s.index| && s.index[v] >= 0
  }

  ghost predicate OnStack(s: Snapshot, v: nat) {
    v < |s.onStack| && s.onStack[v]
  }

  /** v's component is complete. */
  ghost predicate Done(s: Snapshot, v: nat) {
    Visited(s, v) && !OnStack(s, v)
  }

  ghost function VisitedSet(s: Snapshot): set<nat> {
    set v | 0 <= v < |s.index| && Visited(s, v)
  }

  ghost predicate Shape(n: nat, s: Snapshot) {
    && |s.index| == |s.low| == |s.onStack| == |s.comp| == n
    && 0 <= s.next && 0 <= s.count && |VisitedSet(s)| == s.next
    && (forall v :: 0 <= v < n ==> -1 <= s.index[v] < s.next)
    && (forall v :: 0 <= v < n && s.onStack[v] ==> s.index[v] >= 0 && v in s.stack)
  }

  /** The stack holds the marked ops by rising visit number. */
  ghost predicate StackRises(s: Snapshot) {
    && (forall i :: 0 <= i < |s.stack| ==> OnStack(s, s.stack[i]) && s.stack[i] < |s.index|)
    && (forall i, j :: 0 <= i < j < |s.stack| && s.stack[i] < |s.index| && s.stack[j] < |s.index| ==>
          s.index[s.stack[i]] < s.index[s.stack[j]])
  }

  /** An older op on the stack reaches every younger one. */
  ghost predicate OlderReaches(e: Edges, s: Snapshot) {
    forall x: nat, y: nat ::
      OnStack(s, x) && OnStack(s, y) && x < |s.index| && y < |s.index| && s.index[x] <= s.index[y] ==>
      Reach(e, x, y)
  }

  /** Every op on the stack reaches an op of the current call path that is at
      least as old. */
  ghost predicate ReachesPath(e: Edges, s: Snapshot, path: set<nat>) {
    && (forall x: nat :: x in path ==> OnStack(s, x))
    && (forall y: nat {:trigger OlderOnPath(e, s, path, y)} :: OnStack(s, y) ==> OlderOnPath(e, s, path, y))
  }

  ghost predicate OlderOnPath(e: Edges, s: Snapshot, path: set<nat>, y: nat) {
    exists x: nat :: x in path && x < |s.index| && y < |s.index| && s.index[x] <= s.index[y] && Reach(e, y, x)
  }

  /** Only ops of the call path may still have unvisited successors. */
  ghost predicate Explored(e: Edges, s: Snapshot, path: set<nat>) {
    forall x: nat, y: nat :: (x, y) in e && Visited(s, x) && x !in path ==> Visited(s, y)
  }

  ghost predicate DoneClosed(e: Edges, s: Snapshot)
    requires |s.comp| == |s.index|
  {
    forall x: nat, y: nat :: (x, y) in e && Done(s, x) ==> Done(s, y) && s.comp[y] <= s.comp[x]
  }

  ghost predicate SameComponent(e: Edges, x: nat, y: nat) {
    Reach(e, x, y) && Reach(e, y, x)
  }

  /** Complete ops carry equal numbers exactly when each reaches the other. */
  ghost predicate Numbered(e: Edges, s: Snapshot)
    requires |s.comp| == |s.index|
  {
    && (forall x: nat :: Done(s, x) ==> 0 <= s.comp[x] < s.count)
    && (forall x: nat, y: nat :: Done(s, x) && Done(s, y) ==> (s.comp[x] == s.comp[y] <==> SameComponent(e, x, y)))
    && (forall c :: 0 <= c < s.count ==> HasMember(s, c))
  }

  ghost predicate HasMember(s: Snapshot, c: int)
    requires |s.comp| == |s.index|
  {
    exists x: nat :: Done(s, x) && s.comp[x] == c
  }

  ghost predicate Inv(e: Edges, n: nat, s: Snapshot, path: set<nat>) {
    && InRange(e, n) && Shape(n, s) && StackRises(s)
    && OlderReaches(e, s) && ReachesPath(e, s, path)
    && Explored(e, s, path) && DoneClosed(e, s) && Numbered(e, s)
  }

  /** What a visit leaves alone: everything about ops visited before it. */
  ghost predicate Keeps(a: Snapshot, b: Snapshot) {
    && |b.index| == |b.low| == |b.onStack| == |b.comp| == |a.index| == |a.low| == |a.onStack| == |a.comp|
    && a.stack <= b.stack && a.next <= b.next && a.count <= b.count
    && (forall v: nat :: Visited(a, v) ==>
          b.index[v] == a.index[v] && b.low[v] == a.low[v] && b.onStack[v] == a.onStack[v] &&
          (Done(a, v) ==> b.comp[v] == a.comp[v]))
    && (forall v: nat :: Visited(b, v) && !Visited(a, v) ==> b.index[v] >= a.next)
  }

  /** low[u] is the number of an op of the stack as it was at a, or of u
      itself, that u reaches. */
  ghost predicate LowReached(e: Edges, a: Snapshot, s: Snapshot, u: nat) {
    u < |s.low| && exists y: nat ::
      y < |s.index| && (OnStack(a, y) || y == u) && s.index[y] == s.low[u] && Reach(e, u, y)
  }

  /** No op visited since a, other than skip, has an edge to a stack op of a
      below low[u]. */
  ghost predicate LowCovers(e: Edges, a: Snapshot, s: Snapshot, u: nat, skip: set<nat>) {
    u < |s.low| && forall x: nat, y: nat ::
      (x, y) in e && !Visited(a, x) && OnStack(s, x) && x !in skip && OnStack(a, y) && y < |s.index| ==>
      s.low[u] <= s.index[y]
  }

  /** The whole effect of visiting u from a. */
  ghost predicate After(e: Edges, a: Snapshot, b: Snapshot, u: nat) {
    && Keeps(a, b) && Visited(b, u)
    && LowReached(e, a, b, u) && LowCovers(e, a, b, u, {})
    && (if OnStack(b, u) then b.low[u] < b.index[u] else b.stack == a.stack && b.low[u] == b.index[u])
  }

  lemma {:induction false} AfterVisits(e: Edges, a: Snapshot, b: Snapshot, u: nat)
    requires After(e, a, b, u)
    ensures Visited(b, u) && forall v: nat :: Visited(a, v) ==> Visited(b, v)
  {
  }

  lemma {:induction false} InvLength(e: Edges, n: nat, s: Snapshot, path: set<nat>)
    requires Inv(e, n, s, path)
    ensures |s.index| == n
  {
  }

  /** The middle of visiting u, pushed from a: its edges are being followed. */
  ghost predicate During(e: Edges, a: Snapshot, s: Snapshot, u: nat) {
    && Keeps(a, s) && !Visited(a, u) && OnStack(s, u) && u < |s.index| && s.index[u] == a.next
    && a.stack + [u] <= s.stack
    && LowReached(e, a, s, u) && LowCovers(e, a, s, u, {u})
  }

  /** Edge u -> v has been followed. */
  ghost predicate Followed(a: Snapshot, s: Snapshot, u: nat, v: nat) {
    Visited(s, v) && u < |s.low| && (OnStack(a, v) ==> s.low[u] <= s.index[v])
  }

  ghost function Pushed(s: Snapshot, u: nat): Snapshot
    requires u < |s.index| == |s.low| == |s.onStack|
  {
    s.(index := s.index[u := s.next], low := s.low[u := s.next], onStack := s.onStack[u := true],
       stack := s.stack + [u], next := s.next + 1)
  }

  /** s with the ops from height k of its stack popped into component count. */
  ghost predicate PoppedTo(s: Snapshot, b: Snapshot, k: nat) {
    && |s.index| == |s.onStack| == |s.comp| && k <= |s.stack|
    && b.index == s.index && b.low == s.low && b.next == s.next && b.count == s.count && b.stack == s.stack[..k]
    && |b.onStack| == |s.onStack| && |b.comp| == |s.comp|
    && forall v :: 0 <= v < |s.onStack| ==>
         b.onStack[v] == (s.onStack[v] && v !in s.stack[k..]) &&
         b.comp[v] == (if v in s.stack[k..] then s.count else s.comp[v])
  }

  lemma {:induction false} PushShape(n: nat, s: Snapshot, u: nat)
    requires Shape(n, s) && u < n && !Visited(s, u)
    ensures Shape(n, Pushed(s, u))
  {
    var t := Pushed(s, u);
    assert VisitedSet(t) == VisitedSet(s) + {u};
    assert t.stack[|s.stack|] == u;
    forall v | 0 <= v < n && t.onStack[v]
      ensures t.index[v] >= 0 && v in t.stack
    {
      if v != u {
        assert v in s.stack;
      }
    }
  }

  lemma {:induction false} PushStack(n: nat, s: Snapshot, u: nat)
    requires Shape(n, s) && StackRises(s) && u < n && !Visited(s, u)
    ensures StackRises(Pushed(s, u))
  {
    assert forall i :: 0 <= i < |s.stack| ==> Visited(s, s.stack[i]);
  }

  lemma {:induction false} PushReached(e: Edges, s: Snapshot, u: nat, path: set<nat>, x: nat)
    requires ReachesPath(e, s, path) && OnStack(s, x)
    requires forall x: nat :: x in path ==> Reach(e, x, u)
    ensures Reach(e, x, u)
  {
    assert OlderOnPath(e, s, path, x);
    var y: nat :| y in path && y < |s.index| && s.index[y] <= s.index[x] && Reach(e, x, y);
    ReachTrans(e, x, y, u);
  }

  lemma {:induction false} PushOlder(e: Edges, n: nat, s: Snapshot, u: nat, path: set<nat>)
    requires Shape(n, s) && OlderReaches(e, s) && ReachesPath(e, s, path) && u < n && !Visited(s, u)
    requires forall x: nat :: x in path ==> Reach(e, x, u)
    ensures OlderReaches(e, Pushed(s, u))
  {
    var t := Pushed(s, u);
    forall x: nat, y: nat | OnStack(t, x) && OnStack(t, y) && x < n && y < n && t.index[x] <= t.index[y]
      ensures Reach(e, x, y)
    {
      if x == u {
        assert y == u;
        ReachRefl(e, u);
      } else if y == u {
        PushReached(e, s, u, path, x);
      } else {
        assert OnStack(s, x) && OnStack(s, y);
      }
    }
  }

  lemma {:induction false} PushPath(e: Edges, n: nat, s: Snapshot, u: nat, path: set<nat>)
    requires Shape(n, s) && ReachesPath(e, s, path) && u < n && !Visited(s, u)
    ensures ReachesPath(e, Pushed(s, u), path + {u})
  {
    var t := Pushed(s, u);
    forall y: nat | OnStack(t, y)
      ensures OlderOnPath(e, t, path + {u}, y)
    {
      if y == u {
        ReachRefl(e, u);
        assert u in path + {u};
      } else {
        assert OlderOnPath(e, s, path, y);
        var x: nat :| x in path && x < |s.index| && s.index[x] <= s.index[y] && Reach(e, y, x);
        assert x in path + {u};
      }
    }
  }

  lemma {:induction false} PushDuring(e: Edges, n: nat, s: Snapshot, u: nat)
    requires Shape(n, s) && u < n && !Visited(s, u)
    ensures During(e, s, Pushed(s, u), u)
  {
    ReachRefl(e, u);
  }

  lemma {:induction false} PushNumbered(e: Edges, n: nat, s: Snapshot, u: nat)
    requires Shape(n, s) && Numbered(e, s) && DoneClosed(e, s) && u < n && !Visited(s, u)
    ensures Numbered(e, Pushed(s, u)) && DoneClosed(e, Pushed(s, u))
  {
    var t := Pushed(s, u);
    assert forall x: nat :: Done(t, x) <==> Done(s, x);
    forall c | 0 <= c < s.count
      ensures HasMember(t, c)
    {
      assert HasMember(s, c);
      var x: nat :| Done(s, x) && s.comp[x] == c;
      assert Done(t, x);
    }
  }

  lemma {:induction false} PushInv(e: Edges, n: nat, s: Snapshot, u: nat, path: set<nat>)
    requires Inv(e, n, s, path) && u < n && !Visited(s, u)
    requires forall x: nat :: x in path ==> Reach(e, x, u)
    ensures Inv(e, n, Pushed(s, u), path + {u})
    ensures During(e, s, Pushed(s, u), u)
  {
    hide StackRises, OlderReaches, ReachesPath, DoneClosed, Numbered, During;
    PushShape(n, s, u);
    PushStack(n, s, u);
    PushOlder(e, n, s, u, path);
    PushPath(e, n, s, u, path);
    PushDuring(e, n, s, u);
    PushNumbered(e, n, s, u);
  }

  function Min(a: int, b: int): int {
    if a <= b then a else b
  }

  ghost function WithLow(s: Snapshot, u: nat, low: int): Snapshot
    requires u < |s.low|
  {
    s.(low := s.low[u := low])
  }

  lemma {:induction false} WithLowInv(e: Edges, n: nat, s: Snapshot, u: nat, low: int, path: set<nat>)
    requires Inv(e, n, s, path) && u < n
    ensures Inv(e, n, WithLow(s, u, low), path)
  {
    var t := WithLow(s, u, low);
    assert VisitedSet(t) == VisitedSet(s);
    assert forall v: nat :: Done(t, v) <==> Done(s, v);
    forall c | 0 <= c < s.count
      ensures HasMember(t, c)
    {
      assert HasMember(s, c);
      var x: nat :| Done(s, x) && s.comp[x] == c;
      assert Done(t, x);
    }
    forall y: nat | OnStack(t, y)
      ensures OlderOnPath(e, t, path, y)
    {
      assert OlderOnPath(e, s, path, y);
    }
  }

  lemma {:induction false} KeepsTrans(a: Snapshot, s: Snapshot, b: Snapshot)
    requires Keeps(a, s) && Keeps(s, b)
    ensures Keeps(a, b)
  {
    assert forall v: nat :: Visited(a, v) ==> Visited(s, v);
    assert forall v: nat :: Done(a, v) ==> Done(s, v);
  }

  /** Ops on the stack at a were visited before a.next; later ones were not. */
  lemma {:induction false} OldOnStack(n: nat, a: Snapshot, s: Snapshot, y: nat)
    requires Shape(n, a) && Keeps(a, s) && y < n
    ensures OnStack(a, y) ==> OnStack(s, y) && s.index[y] < a.next
    ensures OnStack(s, y) && s.index[y] < a.next && Shape(n, s) ==> OnStack(a, y)
  {
    if OnStack(s, y) && s.index[y] < a.next && Shape(n, s) {
      assert Visited(s, y);
      assert Visited(a, y);
    }
  }

  lemma {:induction false} LowBelowIndex(e: Edges, n: nat, a: Snapshot, s: Snapshot, u: nat)
    requires Shape(n, a) && Keeps(a, s) && LowReached(e, a, s, u) && u < n && s.index[u] == a.next
    ensures s.low[u] <= s.index[u]
  {
    var y: nat :| y < |s.index| && (OnStack(a, y) || y == u) && s.index[y] == s.low[u] && Reach(e, u, y);
    OldOnStack(n, a, s, y);
  }

  lemma {:induction false} ChildLowReached(e: Edges, n: nat, a: Snapshot, s: Snapshot, b: Snapshot, u: nat, v: nat)
    requires Shape(n, a) && Shape(n, s) && Keeps(a, s) && Keeps(s, b)
    requires u < n && v < n && Visited(s, u) && s.index[u] == a.next && (u, v) in e
    requires LowReached(e, a, s, u) && LowReached(e, s, b, v)
    requires !Visited(s, v) && Visited(b, v)
    ensures LowReached(e, a, WithLow(b, u, Min(b.low[u], b.low[v])), u)
  {
    var t := WithLow(b, u, Min(b.low[u], b.low[v]));
    LowBelowIndex(e, n, a, s, u);
    if b.low[v] < b.low[u] {
      var y: nat :| y < |b.index| && (OnStack(s, y) || y == v) && b.index[y] == b.low[v] && Reach(e, v, y);
      EdgeThenReach(e, u, v, y);
      assert y != v;
      OldOnStack(n, s, b, y);
      OldOnStack(n, a, s, y);
      assert s.index[y] == b.index[y];
      assert OnStack(a, y);
      assert t.index[y] == t.low[u];
    } else {
      var y: nat :| y < |s.index| && (OnStack(a, y) || y == u) && s.index[y] == s.low[u] && Reach(e, u, y);
      OldOnStack(n, a, s, y);
      assert Visited(s, y);
      assert t.index[y] == t.low[u];
    }
  }

  lemma {:induction false} ChildLowCovers(e: Edges, n: nat, a: Snapshot, s: Snapshot, b: Snapshot, u: nat, v: nat)
    requires Shape(n, a) && Shape(n, s) && Shape(n, b) && Keeps(a, s) && Keeps(s, b)
    requires u < n && v < n && Visited(s, u)
    requires LowCovers(e, a, s, u, {u}) && LowCovers(e, s, b, v, {})
    ensures LowCovers(e, a, WithLow(b, u, Min(b.low[u], b.low[v])), u, {u})
  {
    var t := WithLow(b, u, Min(b.low[u], b.low[v]));
    forall x: nat, y: nat | (x, y) in e && !Visited(a, x) && OnStack(t, x) && x !in {u} && OnStack(a, y) &&
      y < |t.index|
      ensures t.low[u] <= t.index[y]
    {
      OldOnStack(n, a, s, y);
      OldOnStack(n, s, b, y);
      assert Visited(s, y) && b.index[y] == s.index[y];
      if Visited(s, x) {
        assert OnStack(s, x);
      } else {
        assert OnStack(b, x);
      }
    }
  }

  lemma {:induction false} WithLowKeeps(a: Snapshot, s: Snapshot, u: nat, low: int)
    requires Keeps(a, s) && u < |s.low| && !Visited(a, u)
    ensures Keeps(a, WithLow(s, u, low))
  {
  }

  /** Following an edge to an op that was not visited yet: b is the state its
      visit left. */
  lemma {:induction false} ChildStep(e: Edges, n: nat, a: Snapshot, s: Snapshot, b: Snapshot, u: nat, v: nat,
                                     path: set<nat>)
    requires Shape(n, a) && Inv(e, n, s, path) && During(e, a, s, u) && u < n && v < n && (u, v) in e && !Visited(s, v)
    requires Inv(e, n, b, path) && After(e, s, b, v)
    ensures Inv(e, n, WithLow(b, u, Min(b.low[u], b.low[v])), path)
    ensures During(e, a, WithLow(b, u, Min(b.low[u], b.low[v])), u)
    ensures Followed(a, WithLow(b, u, Min(b.low[u], b.low[v])), u, v)
    ensures b.low[u] == s.low[u] && s.next <= b.next
    ensures forall w: nat :: Visited(s, w) ==> Visited(b, w) && b.index[w] == s.index[w]
  {
    hide StackRises, OlderReaches, ReachesPath, Explored, DoneClosed, Numbered, LowReached, LowCovers;
    WithLowInv(e, n, b, u, Min(b.low[u], b.low[v]), path);
    KeepsTrans(a, s, b);
    WithLowKeeps(a, b, u, Min(b.low[u], b.low[v]));
    ChildLowReached(e, n, a, s, b, u, v);
    ChildLowCovers(e, n, a, s, b, u, v);
    OldOnStack(n, a, s, v);
  }

  lemma {:induction false} BackLow(e: Edges, n: nat, a: Snapshot, s: Snapshot, u: nat, v: nat)
    requires Shape(n, a) && Shape(n, s) && During(e, a, s, u) && u < n && v < n && (u, v) in e && OnStack(s, v)
    ensures LowReached(e, a, WithLow(s, u, Min(s.low[u], s.index[v])), u)
    ensures LowCovers(e, a, WithLow(s, u, Min(s.low[u], s.index[v])), u, {u})
    ensures Followed(a, WithLow(s, u, Min(s.low[u], s.index[v])), u, v)
  {
    var t := WithLow(s, u, Min(s.low[u], s.index[v]));
    LowBelowIndex(e, n, a, s, u);
    if s.index[v] < s.low[u] {
      OldOnStack(n, a, s, v);
      ReachEdge(e, u, v);
      assert OnStack(a, v) && t.index[v] == t.low[u];
    } else {
      var y: nat :| y < |s.index| && (OnStack(a, y) || y == u) && s.index[y] == s.low[u] && Reach(e, u, y);
      assert t.index[y] == t.low[u];
    }
  }

  /** Following an edge to an op still on the stack. */
  lemma {:induction false} BackStep(e: Edges, n: nat, a: Snapshot, s: Snapshot, u: nat, v: nat, path: set<nat>)
    requires Shape(n, a) && Inv(e, n, s, path) && During(e, a, s, u) && u < n && v < n && (u, v) in e && OnStack(s, v)
    ensures Inv(e, n, WithLow(s, u, Min(s.low[u], s.index[v])), path)
    ensures During(e, a, WithLow(s, u, Min(s.low[u], s.index[v])), u)
    ensures Followed(a, WithLow(s, u, Min(s.low[u], s.index[v])), u, v)
  {
    hide StackRises, OlderReaches, ReachesPath, Explored, DoneClosed, Numbered, LowReached, LowCovers;
    WithLowInv(e, n, s, u, Min(s.low[u], s.index[v]), path);
    WithLowKeeps(a, s, u, Min(s.low[u], s.index[v]));
    BackLow(e, n, a, s, u, v);
  }

  /** Following an edge into a complete component: it was already complete
      when u's visit began, or completed during it. */
  lemma {:induction false} DoneStep(n: nat, a: Snapshot, s: Snapshot, u: nat, v: nat)
    requires Shape(n, a) && Keeps(a, s) && u < n && v < n && Done(s, v)
    ensures Followed(a, s, u, v)
  {
    OldOnStack(n, a, s, v);
  }

  ghost predicate AllFollowed(e: Edges, a: Snapshot, s: Snapshot, u: nat) {
    forall v: nat :: (u, v) in e ==> Followed(a, s, u, v)
  }

  /** With every edge of u followed, LowCovers holds for u's own edges too. */
  lemma {:induction false} FollowedCovers(e: Edges, n: nat, a: Snapshot, s: Snapshot, u: nat)
    requires LowCovers(e, a, s, u, {u}) && AllFollowed(e, a, s, u)
    ensures LowCovers(e, a, s, u, {})
  {
    forall x: nat, y: nat | (x, y) in e && !Visited(a, x) && OnStack(s, x) && OnStack(a, y) && y < |s.index|
      ensures s.low[u] <= s.index[y]
    {
      if x == u {
        assert Followed(a, s, u, y);
      }
    }
  }

  lemma {:induction false} FollowedExplored(e: Edges, a: Snapshot, s: Snapshot, u: nat, path: set<nat>)
    requires Explored(e, s, path + {u}) && AllFollowed(e, a, s, u)
    ensures Explored(e, s, path)
  {
    forall x: nat, y: nat | (x, y) in e && Visited(s, x) && x !in path
      ensures Visited(s, y)
    {
      if x == u {
        assert Followed(a, s, u, y);
      } else {
        assert x !in path + {u};
      }
    }
  }

  /** u reaches something older than itself, so it reaches the path above. */
  lemma {:induction false} StayWitness(e: Edges, n: nat, a: Snapshot, s: Snapshot, u: nat,
                                       path: set<nat>) returns (w: nat)
    requires Shape(n, a) && Shape(n, s) && Keeps(a, s) && u < n && s.index[u] == a.next
    requires ReachesPath(e, a, path) && LowReached(e, a, s, u) && s.low[u] != s.index[u]
    ensures w < n && w in path && s.index[w] <= s.low[u] < s.index[u] && Reach(e, u, w)
  {
    var z: nat :| z < |s.index| && (OnStack(a, z) || z == u) && s.index[z] == s.low[u] && Reach(e, u, z);
    OldOnStack(n, a, s, z);
    assert OlderOnPath(e, a, path, z);
    w :| w in path && w < |a.index| && z < |a.index| && a.index[w] <= a.index[z] && Reach(e, z, w);
    ReachTrans(e, u, z, w);
    assert OnStack(a, w) && Visited(a, w) && Visited(a, z);
  }

  lemma {:induction false} StayPathAt(e: Edges, n: nat, s: Snapshot, u: nat, w: nat, path: set<nat>, y: nat)
    requires |s.index| == n && u < n && w < n && w in path && s.index[w] <= s.index[u] && Reach(e, u, w)
    requires OlderOnPath(e, s, path + {u}, y)
    ensures OlderOnPath(e, s, path, y)
  {
    var x: nat :| x in path + {u} && x < |s.index| && y < |s.index| && s.index[x] <= s.index[y] && Reach(e, y, x);
    if x == u {
      ReachTrans(e, y, u, w);
    }
  }

  lemma {:induction false} StayPath(e: Edges, n: nat, a: Snapshot, s: Snapshot, u: nat, path: set<nat>)
    requires Shape(n, a) && Shape(n, s) && Keeps(a, s) && u < n && s.index[u] == a.next
    requires ReachesPath(e, a, path) && ReachesPath(e, s, path + {u})
    requires LowReached(e, a, s, u) && s.low[u] != s.index[u]
    ensures ReachesPath(e, s, path) && s.low[u] < s.index[u]
  {
    var w := StayWitness(e, n, a, s, u, path);
    forall x: nat | x in path
      ensures OnStack(s, x)
    {
      assert x in path + {u};
    }
    forall y: nat | OnStack(s, y)
      ensures OlderOnPath(e, s, path, y)
    {
      assert OlderOnPath(e, s, path + {u}, y);
      StayPathAt(e, n, s, u, w, path, y);
    }
  }

  /** u's visit ends with u still on the stack. */
  lemma {:induction false} FinishStay(e: Edges, n: nat, a: Snapshot, s: Snapshot, u: nat, path: set<nat>)
    requires Inv(e, n, a, path) && Inv(e, n, s, path + {u}) && During(e, a, s, u) && u < n
    requires AllFollowed(e, a, s, u) && s.low[u] != s.index[u]
    ensures Inv(e, n, s, path) && After(e, a, s, u)
  {
    hide StackRises, OlderReaches, ReachesPath, Explored, DoneClosed, Numbered, LowReached, LowCovers, AllFollowed;
    StayPath(e, n, a, s, u, path);
    FollowedExplored(e, a, s, u, path);
    FollowedCovers(e, n, a, s, u);
  }

  /** The ops u's visit put on the stack: those above its old height. */
  lemma {:induction false} PoppedOps(n: nat, a: Snapshot, s: Snapshot, b: Snapshot, u: nat)
    requires Shape(n, a) && Shape(n, s) && StackRises(a) && StackRises(s) && Keeps(a, s) && u < n
    requires s.index[u] == a.next
    requires a.stack + [u] <= s.stack && PoppedTo(s, b, |a.stack|)
    ensures b.stack == a.stack
    ensures forall v: nat :: OnStack(b, v) <==> OnStack(a, v)
    ensures forall v: nat :: v < n ==> (v in s.stack[|a.stack|..] <==> OnStack(s, v) && !Visited(a, v))
  {
    var k := |a.stack|;
    assert s.stack[k] == u;
    forall v: nat | v < n
      ensures v in s.stack[k..] <==> OnStack(s, v) && !Visited(a, v)
      ensures OnStack(b, v) <==> OnStack(a, v)
    {
      if v in s.stack[k..] {
        var i :| k <= i < |s.stack| && s.stack[i] == v;
        assert s.index[v] >= a.next;
        assert !Visited(a, v);
      } else if OnStack(s, v) {
        assert v in s.stack;
        var i :| 0 <= i < |s.stack| && s.stack[i] == v;
        assert i < k && a.stack[i] == v;
        assert OnStack(a, v) && Visited(a, v);
      }
    }
  }

  ghost predicate New(a: Snapshot, s: Snapshot, v: nat) {
    OnStack(s, v) && !Visited(a, v)
  }

  /** b is s with the ops of u's visit popped into a component of their own. */
  ghost predicate Completed(n: nat, a: Snapshot, s: Snapshot, b: Snapshot) {
    && |b.index| == |b.low| == |b.onStack| == |b.comp| == |s.index| == |s.comp| == n
    && b.index == s.index && b.low == s.low && b.next == s.next && b.stack == a.stack && b.count == s.count + 1
    && (forall v: nat :: OnStack(b, v) <==> OnStack(a, v))
    && (forall v: nat :: v < n ==> b.comp[v] == (if New(a, s, v) then s.count else s.comp[v]))
  }

  lemma {:induction false} CompletedDone(n: nat, a: Snapshot, s: Snapshot, b: Snapshot, v: nat)
    requires Shape(n, a) && Shape(n, s) && Keeps(a, s) && Completed(n, a, s, b)
    ensures Done(b, v) <==> New(a, s, v) || Done(s, v)
    ensures !(New(a, s, v) && Done(s, v))
  {
    if v < n {
      assert OnStack(s, v) ==> Visited(s, v);
      assert OnStack(a, v) ==> Visited(a, v);
    }
  }

  lemma {:induction false} CompletedShape(n: nat, a: Snapshot, s: Snapshot, b: Snapshot)
    requires Shape(n, a) && Shape(n, s) && StackRises(a) && Keeps(a, s) && Completed(n, a, s, b)
    ensures Shape(n, b) && StackRises(b)
  {
    assert VisitedSet(b) == VisitedSet(s);
    assert forall v: nat :: OnStack(b, v) ==> Visited(a, v);
    assert forall i :: 0 <= i < |a.stack| ==> Visited(a, a.stack[i]);
  }

  lemma {:induction false} CompletedOlder(e: Edges, n: nat, a: Snapshot, s: Snapshot, b: Snapshot)
    requires Shape(n, a) && Keeps(a, s) && OlderReaches(e, s) && Completed(n, a, s, b)
    ensures OlderReaches(e, b)
  {
    forall x: nat, y: nat | OnStack(b, x) && OnStack(b, y) && x < n && y < n && b.index[x] <= b.index[y]
      ensures Reach(e, x, y)
    {
      OldOnStack(n, a, s, x);
      OldOnStack(n, a, s, y);
    }
  }

  lemma {:induction false} CompletedPath(e: Edges, n: nat, a: Snapshot, s: Snapshot, b: Snapshot, path: set<nat>)
    requires Shape(n, a) && Keeps(a, s) && ReachesPath(e, a, path) && Completed(n, a, s, b)
    ensures ReachesPath(e, b, path)
  {
    forall y: nat | OnStack(b, y)
      ensures OlderOnPath(e, b, path, y)
    {
      assert OlderOnPath(e, a, path, y);
      var x: nat :| x in path && x < |a.index| && y < |a.index| && a.index[x] <= a.index[y] && Reach(e, y, x);
      assert OnStack(a, x) && Visited(a, x) && Visited(a, y);
      assert b.index[x] <= b.index[y];
    }
  }

  /** Nothing that u's visit put on the stack has an edge below u. */
  lemma {:induction false} NewEdges(e: Edges, n: nat, a: Snapshot, s: Snapshot, u: nat, path: set<nat>, x: nat, y: nat)
    requires Shape(n, a) && Shape(n, s) && Keeps(a, s) && u < n && s.low[u] == a.next && InRange(e, n)
    requires ReachesPath(e, a, path) && Explored(e, s, path) && LowCovers(e, a, s, u, {})
    requires New(a, s, x) && (x, y) in e
    ensures New(a, s, y) || Done(s, y)
  {
    assert forall z: nat :: z in path ==> OnStack(a, z) && Visited(a, z);
    assert Visited(s, x) && Visited(s, y);
    OldOnStack(n, a, s, y);
  }

  lemma {:induction false} CompletedClosed(e: Edges, n: nat, a: Snapshot, s: Snapshot, b: Snapshot, u: nat,
                                           path: set<nat>)
    requires Shape(n, a) && Shape(n, s) && Keeps(a, s) && u < n && s.low[u] == a.next && InRange(e, n)
    requires ReachesPath(e, a, path) && Explored(e, s, path) && LowCovers(e, a, s, u, {})
    requires DoneClosed(e, s) && Numbered(e, s) && Completed(n, a, s, b)
    ensures DoneClosed(e, b)
  {
    hide ReachesPath, Explored, LowCovers, Shape, Keeps;
    forall x: nat, y: nat | (x, y) in e && Done(b, x)
      ensures Done(b, y) && b.comp[y] <= b.comp[x]
    {
      CompletedDone(n, a, s, b, x);
      CompletedDone(n, a, s, b, y);
      if New(a, s, x) {
        NewEdges(e, n, a, s, u, path, x, y);
      }
    }
  }

  ghost function DoneSet(s: Snapshot): set<nat> {
    set v | 0 <= v < |s.index| && Done(s, v)
  }

  lemma {:induction false} DoneReach(e: Edges, s: Snapshot, x: nat, y: nat)
    requires |s.comp| == |s.index| && DoneClosed(e, s) && Done(s, x) && Reach(e, x, y)
    ensures Done(s, y)
  {
    var k := DoneSet(s);
    assert Closed(e, k);
    ReachClosed(e, k, x, y);
  }

  /** Every op of u's visit lies on a cycle through u. */
  lemma {:induction false} NewWithRoot(e: Edges, n: nat, a: Snapshot, s: Snapshot, b: Snapshot, u: nat, path: set<nat>,
                                       x: nat)
    requires Shape(n, a) && Shape(n, s) && Keeps(a, s) && u < n && New(a, s, u) && s.index[u] == a.next
    requires OlderReaches(e, s) && ReachesPath(e, s, path + {u}) && ReachesPath(e, a, path)
    requires Completed(n, a, s, b) && DoneClosed(e, b) && New(a, s, x)
    ensures SameComponent(e, x, u)
  {
    assert x < n && Visited(s, x) && s.index[u] <= s.index[x];
    assert OlderOnPath(e, s, path + {u}, x);
    var g: nat :| g in path + {u} && g < |s.index| && x < |s.index| && s.index[g] <= s.index[x] && Reach(e, x, g);
    if g != u {
      assert OnStack(a, g);
      CompletedDone(n, a, s, b, x);
      DoneReach(e, b, x, g);
      assert false;
    }
  }

  lemma {:induction false} CompletedNumberedAt(e: Edges, n: nat, a: Snapshot, s: Snapshot, b: Snapshot, u: nat,
                                               path: set<nat>, x: nat, y: nat)
    requires Shape(n, a) && Shape(n, s) && Keeps(a, s) && u < n && New(a, s, u) && s.index[u] == a.next
    requires OlderReaches(e, s) && ReachesPath(e, s, path + {u}) && ReachesPath(e, a, path)
    requires Completed(n, a, s, b) && DoneClosed(e, b) && DoneClosed(e, s) && Numbered(e, s)
    requires Done(b, x) && Done(b, y)
    ensures b.comp[x] == b.comp[y] <==> SameComponent(e, x, y)
  {
    hide OlderReaches, ReachesPath, Shape, Keeps, DoneClosed;
    CompletedDone(n, a, s, b, x);
    CompletedDone(n, a, s, b, y);
    if New(a, s, x) && New(a, s, y) {
      NewWithRoot(e, n, a, s, b, u, path, x);
      NewWithRoot(e, n, a, s, b, u, path, y);
      ReachTrans(e, x, u, y);
      ReachTrans(e, y, u, x);
    } else if New(a, s, x) || New(a, s, y) {
      if SameComponent(e, x, y) {
        if Done(s, x) { DoneReach(e, s, x, y); } else { DoneReach(e, s, y, x); }
      }
    }
  }

  lemma {:induction false} CompletedMembers(e: Edges, n: nat, a: Snapshot, s: Snapshot, b: Snapshot, u: nat, c: int)
    requires Shape(n, a) && Shape(n, s) && Keeps(a, s) && New(a, s, u) && Numbered(e, s) && Completed(n, a, s, b)
    requires 0 <= c < b.count
    ensures HasMember(b, c)
  {
    CompletedDone(n, a, s, b, u);
    if c < s.count {
      assert HasMember(s, c);
      var x: nat :| Done(s, x) && s.comp[x] == c;
      CompletedDone(n, a, s, b, x);
    }
  }

  lemma {:induction false} CompletedNumbered(e: Edges, n: nat, a: Snapshot, s: Snapshot, b: Snapshot, u: nat,
                                             path: set<nat>)
    requires Shape(n, a) && Shape(n, s) && Keeps(a, s) && u < n && New(a, s, u) && s.index[u] == a.next
    requires OlderReaches(e, s) && ReachesPath(e, s, path + {u}) && ReachesPath(e, a, path)
    requires Completed(n, a, s, b) && DoneClosed(e, b) && DoneClosed(e, s) && Numbered(e, s)
    ensures Numbered(e, b)
  {
    hide OlderReaches, ReachesPath, Keeps, DoneClosed;
    forall x: nat | Done(b, x)
      ensures 0 <= b.comp[x] < b.count
    {
      CompletedDone(n, a, s, b, x);
    }
    forall x: nat, y: nat | Done(b, x) && Done(b, y)
      ensures b.comp[x] == b.comp[y] <==> SameComponent(e, x, y)
    {
      CompletedNumberedAt(e, n, a, s, b, u, path, x, y);
    }
    forall c | 0 <= c < b.count
      ensures HasMember(b, c)
    {
      CompletedMembers(e, n, a, s, b, u, c);
    }
  }

  lemma {:induction false} CompletedKeeps(n: nat, a: Snapshot, s: Snapshot, b: Snapshot)
    requires Shape(n, a) && Keeps(a, s) && Completed(n, a, s, b)
    ensures Keeps(a, b)
  {
    forall v: nat | Visited(a, v)
      ensures b.index[v] == a.index[v] && b.low[v] == a.low[v] && b.onStack[v] == a.onStack[v]
      ensures Done(a, v) ==> b.comp[v] == a.comp[v]
    {
      assert OnStack(b, v) <==> OnStack(a, v);
      assert !New(a, s, v);
    }
    forall v: nat | Visited(b, v) && !Visited(a, v)
      ensures b.index[v] >= a.next
    {
      assert Visited(s, v);
    }
  }

  lemma {:induction false} CompletedAfter(e: Edges, n: nat, a: Snapshot, s: Snapshot, b: Snapshot, u: nat)
    requires Shape(n, a) && Shape(n, s) && During(e, a, s, u) && u < n && s.low[u] == s.index[u]
    requires Completed(n, a, s, b)
    ensures After(e, a, b, u)
  {
    CompletedKeeps(n, a, s, b);
    hide Keeps;
    ReachRefl(e, u);
    assert Visited(s, u) && b.index[u] == b.low[u];
    assert forall v: nat :: OnStack(b, v) ==> Visited(a, v);
  }

  /** u's visit ends with u's whole component complete. */
  lemma {:induction false} FinishPop(e: Edges, n: nat, a: Snapshot, s: Snapshot, b: Snapshot, u: nat, path: set<nat>)
    requires Inv(e, n, a, path) && Inv(e, n, s, path + {u}) && During(e, a, s, u) && u < n
    requires AllFollowed(e, a, s, u) && s.low[u] == s.index[u] && Completed(n, a, s, b)
    ensures Inv(e, n, b, path) && After(e, a, b, u)
  {
    hide Shape, StackRises, OlderReaches, ReachesPath, Explored, DoneClosed, Numbered, LowReached, LowCovers,
         AllFollowed, Keeps, Completed;
    CompletedShape(n, a, s, b);
    CompletedOlder(e, n, a, s, b);
    CompletedPath(e, n, a, s, b, path);
    FollowedExplored(e, a, s, u, path);
    FollowedCovers(e, n, a, s, u);
    CompletedClosed(e, n, a, s, b, u, path);
    CompletedNumbered(e, n, a, s, b, u, path);
    CompletedExplored(e, n, a, s, b, path);
    CompletedAfter(e, n, a, s, b, u);
  }

  lemma {:induction false} CompletedExplored(e: Edges, n: nat, a: Snapshot, s: Snapshot, b: Snapshot, path: set<nat>)
    requires Explored(e, s, path) && Completed(n, a, s, b)
    ensures Explored(e, b, path)
  {
    assert forall v: nat :: Visited(b, v) <==> Visited(s, v);
  }

  lemma {:induction false} VisitsLeft(n: nat, s: Snapshot, u: nat)
    requires Shape(n, s) && u < n
    ensures |s.index| == |s.low| == |s.onStack| == |s.comp| == n
    ensures s.next <= n
    ensures !Visited(s, u) ==> s.next < n
  {
    BoundedSet(VisitedSet(s), n);
    if !Visited(s, u) {
      BoundedSet(VisitedSet(s) + {u}, n);
    }
  }

  lemma {:induction false} InvLengths(e: Edges, n: nat, s: Snapshot, u: nat, path: set<nat>)
    requires Inv(e, n, s, path) && u < n
    ensures |s.index| == |s.low| == |s.onStack| == |s.comp| == n
    ensures s.next <= n && (!Visited(s, u) ==> s.next < n)
  {
    VisitsLeft(n, s, u);
  }

  ghost predicate FollowedAll(a: Snapshot, s: Snapshot, u: nat, followed: set<nat>) {
    forall v: nat :: v in followed ==> Followed(a, s, u, v)
  }

  lemma {:induction false} NoneFollowed(a: Snapshot, s: Snapshot, u: nat)
    ensures FollowedAll(a, s, u, {})
  {
  }

  /** Following one more edge only lowers low[u] and visits more. */
  lemma {:induction false} FollowedMore(a: Snapshot, s: Snapshot, t: Snapshot, u: nat, v: nat, followed: set<nat>)
    requires FollowedAll(a, s, u, followed) && Followed(a, t, u, v)
    requires |t.low| == |s.low| && |t.index| == |s.index| && u < |s.low| && t.low[u] <= s.low[u]
    requires forall w: nat :: Visited(s, w) ==> Visited(t, w) && t.index[w] == s.index[w]
    ensures FollowedAll(a, t, u, followed + {v})
  {
    forall w: nat | w in followed
      ensures Followed(a, t, u, w)
    {
      assert Followed(a, s, u, w);
    }
  }

  lemma {:induction false} ListedFollowed(lg: LevelGraph, a: Snapshot, s: Snapshot, u: nat, followed: set<nat>)
    requires lg.Valid() && u < |lg.elev| && FollowedAll(a, s, u, followed)
    requires forall j :: 0 <= j < |lg.waiters[u]| ==> lg.waiters[u][j] in followed
    requires forall j :: 0 <= j < |Neighbours(lg.watch, u)| ==> Neighbours(lg.watch, u)[j] in followed
    ensures AllFollowed(AllEdges(lg.Value()), a, s, u)
  {
    forall v: nat | (u, v) in AllEdges(lg.Value())
      ensures Followed(a, s, u, v)
    {
      lg.EdgeListed(u, v);
    }
  }

  lemma {:induction false} DuringFacts(e: Edges, n: nat, a: Snapshot, s: Snapshot, u: nat, path: set<nat>)
    requires During(e, a, s, u) && Inv(e, n, s, path) && u < n
    ensures Keeps(a, s) && s.index[u] == a.next && a.stack + [u] <= s.stack && Shape(n, s) && StackRises(s)
    ensures |s.low| == n
  {
  }

  lemma {:induction false} StartInv(e: Edges, n: nat, s: Snapshot)
    requires InRange(e, n)
    requires |s.index| == |s.low| == |s.onStack| == |s.comp| == n && s.stack == [] && s.next == 0 && s.count == 0
    requires forall v :: 0 <= v < n ==> s.index[v] == -1 && !s.onStack[v]
    ensures Inv(e, n, s, {})
  {
    assert VisitedSet(s) == {};
  }

  /** Between two top-level visits every visited op is complete. */
  lemma {:induction false} TopLevelDone(e: Edges, s: Snapshot, v: nat)
    requires ReachesPath(e, s, {}) && Visited(s, v)
    ensures Done(s, v)
  {
    assert !OlderOnPath(e, s, {}, v);
  }

  /** The finished component numbers: equal exactly on one strongly connected
      component, every number used, and no edge leading to a higher one. */
  ghost predicate ComponentNumbers(e: Edges, n: nat, comp: seq<int>, count: int) {
    && |comp| == n && 0 <= count
    && (forall v :: 0 <= v < n ==> 0 <= comp[v] < count)
    && (forall u, v :: 0 <= u < n && 0 <= v < n ==> (comp[u] == comp[v] <==> SameComponent(e, u, v)))
    && (forall u, v :: (u, v) in e && u < n && v < n ==> comp[v] <= comp[u])
    && (forall c :: 0 <= c < count ==> c in comp)
  }

  lemma {:induction false} AllDone(e: Edges, n: nat, s: Snapshot)
    requires Inv(e, n, s, {}) && forall v :: 0 <= v < n ==> Visited(s, v)
    ensures ComponentNumbers(e, n, s.comp, s.count)
  {
    hide StackRises, OlderReaches, Explored;
    forall v: nat | v < n
      ensures Done(s, v)
    {
      TopLevelDone(e, s, v);
    }
    forall c | 0 <= c < s.count
      ensures c in s.comp
    {
      assert HasMember(s, c);
      var x: nat :| Done(s, x) && s.comp[x] == c;
    }
  }

  lemma {:induction false} PopNone(n: nat, s: Snapshot)
    requires Shape(n, s)
    ensures PoppedTo(s, s, |s.stack|)
  {
    assert s.stack[..|s.stack|] == s.stack;
    assert s.stack[|s.stack|..] == [];
  }

  lemma {:induction false} PopOne(n: nat, s: Snapshot, b: Snapshot, k: nat)
    requires Shape(n, s) && StackRises(s) && k < |s.stack| && PoppedTo(s, b, k + 1)
    ensures b.stack == s.stack[..k + 1] && s.stack[k] < |b.onStack| == |b.comp| && b.count == s.count
    ensures var popped := b.(stack := b.stack[..k], onStack := b.onStack[s.stack[k] := false],
                             comp := b.comp[s.stack[k] := s.count]);
            PoppedTo(s, popped, k)
  {
    assert s.stack[k..] == [s.stack[k]] + s.stack[k + 1..];
    assert OnStack(s, s.stack[k]);
  }

  lemma {:induction false} OnlyAt(s: Snapshot, j: nat, k: nat)
    requires StackRises(s) && j < |s.stack| && k < |s.stack| && s.stack[j] == s.stack[k]
    ensures j == k
  {
  }

  lemma {:induction false} PoppedCompleted(n: nat, a: Snapshot, s: Snapshot, b: Snapshot, u: nat)
    requires Shape(n, a) && Shape(n, s) && StackRises(a) && StackRises(s) && Keeps(a, s) && u < n
    requires s.index[u] == a.next
    requires a.stack + [u] <= s.stack && PoppedTo(s, b, |a.stack|)
    ensures Completed(n, a, s, b.(count := s.count + 1))
  {
    PoppedOps(n, a, s, b, u);
  }

  class Tarjan {
    const lg: LevelGraph
    var index: seq<int>
    var low: seq<int>
    var onStack: seq<bool>
    var stack: seq<nat>
    var comp: seq<int>
    var next: int
    var count: int

    ghost function Now(): Snapshot
      reads this
    {
      Snapshot(index, low, onStack, stack, comp, next, count)
    }

    ghost function Edges(): Edges
      reads lg
    {
      AllEdges(lg.Value())
    }

    ghost predicate Ready(path: set<nat>)
      reads this, lg
    {
      lg.Valid() && Inv(Edges(), |lg.elev|, Now(), path)
    }

    constructor (lg: LevelGraph)
      requires lg.Valid()
      ensures this.lg == lg && Ready({}) && next == 0
      ensures forall v :: 0 <= v < |lg.elev| ==> index[v] == -1
    {
      var n := |lg.elev|;
      this.lg := lg;
      index, low, onStack, comp := seq(n, _ => -1), seq(n, _ => 0), seq(n, _ => false), seq(n, _ => 0);
      stack, next, count := [], 0, 0;
      new;
      EdgesInRange(lg);
      StartInv(Edges(), |lg.elev|, Now());
    }

    method Visit(u: nat, ghost path: set<nat>)
      requires Ready(path) && u < |lg.elev| && !Visited(Now(), u)
      requires forall x: nat :: x in path ==> Reach(Edges(), x, u)
      modifies this
      ensures Ready(path) && After(Edges(), old(Now()), Now(), u)
      decreases |lg.elev| - next, 0
    {
      hide Inv, Shape, Keeps, During, After, Followed, FollowedAll, AllFollowed;
      ghost var a, e, n := Now(), Edges(), |lg.elev|;
      Push(u, path);
      ReachRefl(e, u);
      ghost var followed := {};
      NoneFollowed(a, Now(), u);
      for k := 0 to |lg.waiters[u]|
        invariant Ready(path + {u}) && During(e, a, Now(), u) && a.next < next
        invariant FollowedAll(a, Now(), u, followed) && forall j :: 0 <= j < k ==> lg.waiters[u][j] in followed
      {
        lg.EdgeListed(u, lg.waiters[u][k]);
        FollowEdge(u, lg.waiters[u][k], a, path + {u}, followed);
        followed := followed + {lg.waiters[u][k]};
      }
      var watched := Neighbours(lg.watch, u);
      for k := 0 to |watched|
        invariant Ready(path + {u}) && During(e, a, Now(), u) && a.next < next
        invariant forall j :: 0 <= j < |lg.waiters[u]| ==> lg.waiters[u][j] in followed
        invariant FollowedAll(a, Now(), u, followed) && forall j :: 0 <= j < k ==> watched[j] in followed
      {
        lg.EdgeListed(u, watched[k]);
        FollowEdge(u, watched[k], a, path + {u}, followed);
        followed := followed + {watched[k]};
      }
      ListedFollowed(lg, a, Now(), u, followed);
      Finish(u, path, a);
    }

    method Push(u: nat, ghost path: set<nat>)
      requires Ready(path) && u < |lg.elev| && !Visited(Now(), u)
      requires forall x: nat :: x in path ==> Reach(Edges(), x, u)
      modifies this
      ensures Ready(path + {u}) && During(Edges(), old(Now()), Now(), u)
      ensures Shape(|lg.elev|, old(Now())) && old(next) < next <= |lg.elev|
    {
      hide During;
      ghost var a, e, n := Now(), Edges(), |lg.elev|;
      VisitsLeft(n, a, u);
      PushInv(e, n, a, u, path);
      hide Inv, Shape;
      index, low := index[u := next], low[u := next];
      next := next + 1;
      stack := stack + [u];
      onStack := onStack[u := true];
      assert Now() == Pushed(a, u);
    }

    /** Every edge of u followed: u's component is complete exactly when
        nothing in it leads below u. */
    method Finish(u: nat, ghost path: set<nat>, ghost a: Snapshot)
      requires u < |lg.elev| && Ready(path + {u}) && During(Edges(), a, Now(), u) && AllFollowed(Edges(), a, Now(), u)
      requires Inv(Edges(), |lg.elev|, a, path)
      modifies this`stack, this`onStack, this`comp, this`count
      ensures Ready(path) && After(Edges(), a, Now(), u)
    {
      hide During, Shape, Keeps, StackRises, Completed, AllFollowed, After;
      ghost var e, n, s := Edges(), |lg.elev|, Now();
      DuringFacts(e, n, a, s, u, path + {u});
      if low[u] != index[u] {
        FinishStay(e, n, a, s, u, path);
      } else {
        PopComponent(u, a);
        FinishPop(e, n, a, s, Now(), u, path);
      }
    }

    method PopComponent(u: nat, ghost a: Snapshot)
      requires u < |lg.elev| && Shape(|lg.elev|, a) && Shape(|lg.elev|, Now()) && StackRises(a) && StackRises(Now())
      requires Keeps(a, Now()) && index[u] == a.next && a.stack + [u] <= stack
      modifies this`stack, this`onStack, this`comp, this`count
      ensures Completed(|lg.elev|, a, old(Now()), Now())
    {
      hide Shape, Keeps, Completed, PoppedTo;
      ghost var s, k := Now(), |a.stack|;
      assert s.stack[k] == u;
      PopNone(|lg.elev|, s);
      while true
        invariant k < |stack| <= |s.stack| && PoppedTo(s, Now(), |stack|)
        decreases |stack|
      {
        PopOne(|lg.elev|, s, Now(), |stack| - 1);
        var w := stack[|stack| - 1];
        stack := stack[..|stack| - 1];
        onStack := onStack[w := false];
        comp := comp[w := count];
        if w == u {
          break;
        }
      }
      OnlyAt(s, k, |stack|);
      PoppedOps(|lg.elev|, a, s, Now(), u);
      PoppedCompleted(|lg.elev|, a, s, Now(), u);
      count := count + 1;
    }

    /** Follows u -> v while u, pushed from a, is being visited. */
    method FollowEdge(u: nat, v: nat, ghost a: Snapshot, ghost path: set<nat>, ghost followed: set<nat>)
      requires Ready(path) && Shape(|lg.elev|, a) && During(Edges(), a, Now(), u)
      requires u < |lg.elev| && v < |lg.elev| && (u, v) in Edges() && u in path
      requires FollowedAll(a, Now(), u, followed)
      requires forall x: nat :: x in path ==> Reach(Edges(), x, u)
      modifies this
      ensures Ready(path) && During(Edges(), a, Now(), u) && next >= old(next)
      ensures FollowedAll(a, Now(), u, followed + {v})
      decreases |lg.elev| - next, 1
    {
      hide Inv, Shape, During, Keeps, LowReached, LowCovers, Followed, FollowedAll;
      ghost var e, n, s := Edges(), |lg.elev|, Now();
      InvLengths(e, n, s, u, path);
      DuringFacts(e, n, a, s, u, path);
      if index[v] < 0 {
        FirstEdge(e, u, v, path);
        Visit(v, path);
        ghost var b := Now();
        InvLengths(e, n, b, u, path);
        ChildStep(e, n, a, s, b, u, v, path);
        low := low[u := Min(low[u], low[v])];
        assert Now() == WithLow(b, u, Min(b.low[u], b.low[v]));
        FollowedMore(a, s, Now(), u, v, followed);
      } else if onStack[v] {
        BackStep(e, n, a, s, u, v, path);
        low := low[u := Min(low[u], index[v])];
        assert Now() == WithLow(s, u, Min(s.low[u], s.index[v]));
        FollowedMore(a, s, Now(), u, v, followed);
      } else {
        DoneStep(n, a, s, u, v);
        FollowedMore(a, s, s, u, v, followed);
      }
    }
  }

  lemma {:induction false} FirstEdge(e: Edges, u: nat, v: nat, path: set<nat>)
    requires (u, v) in e && forall x: nat :: x in path ==> Reach(e, x, u)
    ensures forall x: nat :: x in path ==> Reach(e, x, v)
  {
    forall x: nat | x in path
      ensures Reach(e, x, v)
    {
      ReachThenEdge(e, x, u, v);
    }
  }

  lemma {:induction false} EdgesInRange(lg: LevelGraph)
    requires lg.Valid()
    ensures Wf(lg.Value()) && InRange(AllEdges(lg.Value()), |lg.elev|)
  {
    assert Wf(lg.Value());
    AllEdgesInRange(lg.Value());
  }
}
