/** Reachability in a finite directed graph given as its set of edges.
    Every scheduling proof of the project reduces to these few facts. */
module Walks {

  /** b is reached from a along exactly k edges of e. */
  ghost predicate ReachN<T(!new)>(e: set<(T, T)>, a: T, b: T, k: nat) {
    if k == 0 then a == b else exists c :: (a, c) in e && ReachN(e, c, b, k - 1)
  }

  ghost predicate Reach<T(!new)>(e: set<(T, T)>, a: T, b: T) {
    exists k :: ReachN(e, a, b, k)
  }

  /** No edge lies on a cycle; an edge from a node to itself is one. */
  ghost predicate Acyclic<T(!new)>(e: set<(T, T)>) {
    forall a, b :: (a, b) in e ==> !Reach(e, b, a)
  }

  ghost predicate Closed<T(!new)>(e: set<(T, T)>, s: set<T>) {
    forall a, b :: (a, b) in e && a in s ==> b in s
  }

  lemma {:induction false} ReachRefl<T(!new)>(e: set<(T, T)>, a: T)
    ensures Reach(e, a, a)
  {
    assert ReachN(e, a, a, 0);
  }

  lemma {:induction false} ReachEdge<T(!new)>(e: set<(T, T)>, a: T, b: T)
    requires (a, b) in e
    ensures Reach(e, a, b)
  {
    assert ReachN(e, b, b, 0);
    assert ReachN(e, a, b, 1);
  }

  lemma {:induction false} ReachNTrans<T(!new)>(e: set<(T, T)>, a: T, b: T, c: T, k: nat, l: nat)
    requires ReachN(e, a, b, k) && ReachN(e, b, c, l)
    ensures ReachN(e, a, c, k + l)
  {
    if k > 0 {
      var d :| (a, d) in e && ReachN(e, d, b, k - 1);
      ReachNTrans(e, d, b, c, k - 1, l);
      assert k + l - 1 == k - 1 + l;
    }
  }

  lemma {:induction false} ReachTrans<T(!new)>(e: set<(T, T)>, a: T, b: T, c: T)
    requires Reach(e, a, b) && Reach(e, b, c)
    ensures Reach(e, a, c)
  {
    var k: nat :| ReachN(e, a, b, k);
    var l: nat :| ReachN(e, b, c, l);
    ReachNTrans(e, a, b, c, k, l);
  }

  /** Reach extended by one edge at the end. */
  lemma {:induction false} ReachThenEdge<T(!new)>(e: set<(T, T)>, a: T, b: T, c: T)
    requires Reach(e, a, b) && (b, c) in e
    ensures Reach(e, a, c)
  {
    ReachEdge(e, b, c);
    ReachTrans(e, a, b, c);
  }

  /** Reach extended by one edge at the front. */
  lemma {:induction false} EdgeThenReach<T(!new)>(e: set<(T, T)>, a: T, b: T, c: T)
    requires (a, b) in e && Reach(e, b, c)
    ensures Reach(e, a, c)
  {
    ReachEdge(e, a, b);
    ReachTrans(e, a, b, c);
  }

  lemma {:induction false} ReachNMono<T(!new)>(e: set<(T, T)>, f: set<(T, T)>, a: T, b: T, k: nat)
    requires e <= f && ReachN(e, a, b, k)
    ensures ReachN(f, a, b, k)
  {
    if k > 0 {
      var c :| (a, c) in e && ReachN(e, c, b, k - 1);
      ReachNMono(e, f, c, b, k - 1);
    }
  }

  /** More edges reach more. */
  lemma {:induction false} ReachMono<T(!new)>(e: set<(T, T)>, f: set<(T, T)>, a: T, b: T)
    requires e <= f && Reach(e, a, b)
    ensures Reach(f, a, b)
  {
    var k: nat :| ReachN(e, a, b, k);
    ReachNMono(e, f, a, b, k);
  }

  lemma {:induction false} ReachNClosed<T(!new)>(e: set<(T, T)>, s: set<T>, a: T, b: T, k: nat)
    requires Closed(e, s) && a in s && ReachN(e, a, b, k)
    ensures b in s
  {
    if k > 0 {
      var c :| (a, c) in e && ReachN(e, c, b, k - 1);
      ReachNClosed(e, s, c, b, k - 1);
    }
  }

  /** A set closed under the edges holds everything its members reach: the
      completeness argument of every search below. */
  lemma {:induction false} ReachClosed<T(!new)>(e: set<(T, T)>, s: set<T>, a: T, b: T)
    requires Closed(e, s) && a in s && Reach(e, a, b)
    ensures b in s
  {
    var k: nat :| ReachN(e, a, b, k);
    ReachNClosed(e, s, a, b, k);
  }

  ghost predicate ClosedBack<T(!new)>(e: set<(T, T)>, s: set<T>) {
    forall a, b :: (a, b) in e && b in s ==> a in s
  }

  lemma {:induction false} ReachNClosedBack<T(!new)>(e: set<(T, T)>, s: set<T>, a: T, b: T, k: nat)
    requires ClosedBack(e, s) && b in s && ReachN(e, a, b, k)
    ensures a in s
  {
    if k > 0 {
      var c :| (a, c) in e && ReachN(e, c, b, k - 1);
      ReachNClosedBack(e, s, c, b, k - 1);
    }
  }

  /** The same backwards. */
  lemma {:induction false} ReachClosedBack<T(!new)>(e: set<(T, T)>, s: set<T>, a: T, b: T)
    requires ClosedBack(e, s) && b in s && Reach(e, a, b)
    ensures a in s
  {
    var k: nat :| ReachN(e, a, b, k);
    ReachNClosedBack(e, s, a, b, k);
  }

  lemma {:induction false} ReachFirst<T(!new)>(e: set<(T, T)>, a: T, b: T) returns (c: T)
    requires Reach(e, a, b) && a != b
    ensures (a, c) in e && Reach(e, c, b)
  {
    var k: nat :| ReachN(e, a, b, k);
    c :| (a, c) in e && ReachN(e, c, b, k - 1);
  }

  lemma {:induction false} ReachNLast<T(!new)>(e: set<(T, T)>, a: T, b: T, k: nat) returns (c: T)
    requires k > 0 && ReachN(e, a, b, k)
    ensures ReachN(e, a, c, k - 1) && (c, b) in e
  {
    var d :| (a, d) in e && ReachN(e, d, b, k - 1);
    if k == 1 {
      c := a;
    } else {
      c := ReachNLast(e, d, b, k - 1);
    }
  }

  lemma {:induction false} ReachLast<T(!new)>(e: set<(T, T)>, a: T, b: T) returns (c: T)
    requires Reach(e, a, b) && a != b
    ensures Reach(e, a, c) && (c, b) in e
  {
    var k: nat :| ReachN(e, a, b, k);
    c := ReachNLast(e, a, b, k);
  }

  lemma {:induction false} ReachNWithEdge<T(!new)>(e: set<(T, T)>, u: T, v: T, a: T, b: T, k: nat)
    requires ReachN(e + {(u, v)}, a, b, k)
    ensures Reach(e, a, b) || (Reach(e, a, u) && Reach(e, v, b))
  {
    if k == 0 {
      ReachRefl(e, a);
    } else {
      var c :| (a, c) in e + {(u, v)} && ReachN(e + {(u, v)}, c, b, k - 1);
      ReachNWithEdge(e, u, v, c, b, k - 1);
      if (a, c) in e {
        if Reach(e, c, b) { EdgeThenReach(e, a, c, b); } else { EdgeThenReach(e, a, c, u); }
      } else {
        ReachRefl(e, u);
      }
    }
  }

  /** What a new edge u -> v adds: a walk either does without it, or reaches u
      before its first use and continues from v after its last. */
  lemma {:induction false} ReachWithEdge<T(!new)>(e: set<(T, T)>, u: T, v: T, a: T, b: T)
    requires Reach(e + {(u, v)}, a, b)
    ensures Reach(e, a, b) || (Reach(e, a, u) && Reach(e, v, b))
  {
    var k: nat :| ReachN(e + {(u, v)}, a, b, k);
    ReachNWithEdge(e, u, v, a, b, k);
  }

  /** An edge whose target does not reach its source merges no two strongly
      connected components. */
  lemma {:induction false} NoNewComponent<T(!new)>(e: set<(T, T)>, u: T, v: T, a: T, b: T)
    requires !Reach(e, v, u)
    requires Reach(e + {(u, v)}, a, b) && Reach(e + {(u, v)}, b, a)
    ensures Reach(e, a, b) && Reach(e, b, a)
  {
    ReachWithEdge(e, u, v, a, b);
    ReachWithEdge(e, u, v, b, a);
    if !Reach(e, a, b) {
      // v -> b -> .. -> u would close the cycle: by b -> a -> u in e, or by b -> u.
      if Reach(e, b, a) {
        ReachTrans(e, v, b, a);
        ReachTrans(e, v, a, u);
      } else {
        ReachTrans(e, v, b, u);
      }
    } else if !Reach(e, b, a) {
      ReachTrans(e, v, a, b);
      ReachTrans(e, v, b, u);
    }
  }

  /** Such an edge keeps an acyclic graph acyclic. */
  lemma {:induction false} AcyclicWithEdge<T(!new)>(e: set<(T, T)>, u: T, v: T)
    requires Acyclic(e) && !Reach(e, v, u)
    ensures Acyclic(e + {(u, v)})
  {
    forall a, b | (a, b) in e + {(u, v)}
      ensures !Reach(e + {(u, v)}, b, a)
    {
      if Reach(e + {(u, v)}, b, a) {
        ReachWithEdge(e, u, v, b, a);
        if (a, b) in e {
          EdgeThenReach(e, a, b, u);
          ReachTrans(e, v, a, u);
        }
      }
    }
  }

  /** With a reachable source the same edge does close a cycle. */
  lemma {:induction false} EdgeClosesCycle<T(!new)>(e: set<(T, T)>, u: T, v: T)
    requires Reach(e, v, u)
    ensures !Acyclic(e + {(u, v)})
  {
    ReachMono(e, e + {(u, v)}, v, u);
  }

  /** A subgraph of an acyclic graph is acyclic. */
  lemma {:induction false} AcyclicMono<T(!new)>(e: set<(T, T)>, f: set<(T, T)>)
    requires e <= f && Acyclic(f)
    ensures Acyclic(e)
  {
    forall a, b | (a, b) in e
      ensures !Reach(e, b, a)
    {
      if Reach(e, b, a) {
        ReachMono(e, f, b, a);
      }
    }
  }

  ghost predicate Distinct<T>(s: seq<T>) {
    forall j, k :: 0 <= j < k < |s| ==> s[j] != s[k]
  }

  /** Numbers below n hold no more than n distinct ones. */
  lemma {:induction false} BoundedSet(s: set<nat>, n: nat)
    requires forall v :: v in s ==> v < n
    ensures |s| <= n
  {
    if n > 0 {
      BoundedSet(s - {n - 1}, n - 1);
      if n - 1 in s {
        assert s == (s - {n - 1}) + {n - 1};
      } else {
        assert s == s - {n - 1};
      }
    } else {
      assert s == {};
    }
  }

  /** A duplicate-free sequence of numbers below n has length at most n, and
      with length n it holds every one of them. */
  lemma {:induction false} DistinctBelow(s: seq<nat>, n: nat)
    requires forall i :: 0 <= i < |s| ==> s[i] < n
    requires forall i, j :: 0 <= i < j < |s| ==> s[i] != s[j]
    ensures |s| <= n
    ensures |s| == n ==> forall v :: 0 <= v < n ==> v in s
  {
    DistinctCard(s);
    var members: set<nat> := set v | v in s;
    BoundedSet(members, n);
    if |s| == n {
      forall v | 0 <= v < n
        ensures v in s
      {
        if v !in s {
          BoundedSet(members + {v}, n);
        }
      }
    }
  }

  lemma {:induction false} DistinctCard<T>(s: seq<T>)
    requires forall i, j :: 0 <= i < j < |s| ==> s[i] != s[j]
    ensures |(set v | v in s)| == |s|
  {
    if s != [] {
      var last, rest := s[|s| - 1], s[..|s| - 1];
      DistinctCard(rest);
      assert (set v | v in s) == (set v | v in rest) + {last};
      assert last !in rest;
    }
  }
}
