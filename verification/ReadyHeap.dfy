/** The min-heap of ready ops of api/apply_order.go, driven by the heap
    operations of Go's container/heap. */
module ReadyHeaps {

  /** Op a comes before op b: lower rank, ties by index. */
  predicate Before(rank: seq<int>, a: nat, b: nat)
    requires a < |rank| && b < |rank|
  {
    rank[a] < rank[b] || (rank[a] == rank[b] && a < b)
  }

  /** a does not come after b. */
  predicate NotAfter(rank: seq<int>, a: nat, b: nat)
    requires a < |rank| && b < |rank|
  {
    !Before(rank, b, a)
  }

  function Par(k: nat): nat
    requires k > 0
  {
    (k - 1) / 2
  }

  function Swapped(s: seq<nat>, i: nat, j: nat): (t: seq<nat>)
    requires i < |s| && j < |s|
    ensures |t| == |s| && t[i] == s[j] && t[j] == s[i]
    ensures forall k :: 0 <= k < |s| && k != i && k != j ==> t[k] == s[k]
  {
    s[i := s[j]][j := s[i]]
  }

  lemma {:induction false} SwappedMultiset(s: seq<nat>, i: nat, j: nat)
    requires i < |s| && j < |s|
    ensures multiset(Swapped(s, i, j)) == multiset(s)
  {
    var one := s[i := s[j]];
    assert multiset(one) == multiset(s) - multiset{s[i]} + multiset{s[j]};
    assert multiset(one[j := s[i]]) == multiset(one) - multiset{one[j]} + multiset{s[i]};
  }

  ghost predicate Ranked(ops: seq<nat>, n: nat) {
    forall k :: 0 <= k < |ops| ==> ops[k] < n
  }

  /** Entry k does not come before its parent. */
  ghost predicate Below(rank: seq<int>, ops: seq<nat>, k: nat)
    requires Ranked(ops, |rank|) && 0 < k < |ops|
  {
    NotAfter(rank, ops[Par(k)], ops[k])
  }

  ghost predicate Heap(rank: seq<int>, ops: seq<nat>)
    requires Ranked(ops, |rank|)
  {
    forall k :: 0 < k < |ops| ==> Below(rank, ops, k)
  }

  /** No entry comes before the root. */
  lemma {:induction false} RootFirst(rank: seq<int>, ops: seq<nat>, k: nat)
    requires Ranked(ops, |rank|) && Heap(rank, ops) && k < |ops|
    ensures NotAfter(rank, ops[0], ops[k])
    decreases k
  {
    if k > 0 {
      RootFirst(rank, ops, Par(k));
      assert Below(rank, ops, k);
    }
  }

  /** The first n entries are in heap order from entry lo down, except below
      entry i, whose children still fit below i's parent. */
  ghost predicate HeapBut(rank: seq<int>, ops: seq<nat>, n: nat, lo: nat, i: nat)
    requires Ranked(ops, |rank|) && n <= |ops|
  {
    && (forall k :: 0 < k < n && Par(k) >= lo && Par(k) != i ==> Below(rank, ops, k))
    && (forall k :: 0 < k < n && Par(k) == i && lo < i && Par(i) >= lo && i < n ==> NotAfter(rank, ops[Par(i)], ops[k]))
  }

  lemma {:induction false} DownSwap(rank: seq<int>, ops: seq<nat>, n: nat, lo: nat, i: nat, j: nat)
    requires Ranked(ops, |rank|) && n <= |ops| && i < j < n && Par(j) == i && lo <= i && (i == lo || Par(i) >= lo)
    requires HeapBut(rank, ops, n, lo, i) && Before(rank, ops[j], ops[i])
    requires forall k :: 0 < k < n && Par(k) == i ==> NotAfter(rank, ops[j], ops[k])
    ensures Ranked(Swapped(ops, i, j), |rank|) && HeapBut(rank, Swapped(ops, i, j), n, lo, j)
  {
    var t := Swapped(ops, i, j);
    forall k | 0 < k < n && Par(k) >= lo && Par(k) != j
      ensures Below(rank, t, k)
    {
      if Par(k) == i {
        assert NotAfter(rank, ops[j], ops[k]);
      } else if k == i {
        assert NotAfter(rank, ops[Par(i)], ops[j]);
      } else {
        assert Below(rank, ops, k);
      }
    }
    forall k | 0 < k < n && Par(k) == j
      ensures NotAfter(rank, t[Par(j)], t[k])
    {
      assert Below(rank, ops, k);
    }
  }

  /** Entry i has no child among the first n, or is not after its first one. */
  ghost predicate DownStops(rank: seq<int>, ops: seq<nat>, n: nat, i: nat)
    requires Ranked(ops, |rank|) && n <= |ops|
  {
    forall k :: 0 < k < n && Par(k) == i ==> Below(rank, ops, k)
  }

  lemma {:induction false} DownDone(rank: seq<int>, ops: seq<nat>, n: nat, lo: nat, i: nat)
    requires Ranked(ops, |rank|) && n <= |ops| && HeapBut(rank, ops, n, lo, i) && DownStops(rank, ops, n, i)
    ensures forall k :: 0 < k < n && Par(k) >= lo ==> Below(rank, ops, k)
  {
  }

  /** The child of i that comes first. */
  function FirstChild(rank: seq<int>, ops: seq<nat>, n: nat, i: nat): (j: nat)
    requires Ranked(ops, |rank|) && 2 * i + 1 < n <= |ops|
    ensures i < j < n && Par(j) == i
    ensures forall k :: 0 < k < n && Par(k) == i ==> NotAfter(rank, ops[j], ops[k])
  {
    assert forall k :: 0 < k < n && Par(k) == i ==> k == 2 * i + 1 || k == 2 * i + 2;
    if 2 * i + 2 < n && Before(rank, ops[2 * i + 2], ops[2 * i + 1]) then 2 * i + 2 else 2 * i + 1
  }

  /** The heap is in order except that entry j may come before its parent. */
  ghost predicate HeapUpTo(rank: seq<int>, ops: seq<nat>, j: nat)
    requires Ranked(ops, |rank|) && j < |ops|
  {
    && (forall k :: 0 < k < |ops| && k != j ==> Below(rank, ops, k))
    && (forall k :: 0 < k < |ops| && Par(k) == j && j > 0 ==> NotAfter(rank, ops[Par(j)], ops[k]))
  }

  lemma {:induction false} UpSwap(rank: seq<int>, ops: seq<nat>, j: nat)
    requires Ranked(ops, |rank|) && 0 < j < |ops| && HeapUpTo(rank, ops, j) && Before(rank, ops[j], ops[Par(j)])
    ensures Ranked(Swapped(ops, Par(j), j), |rank|) && HeapUpTo(rank, Swapped(ops, Par(j), j), Par(j))
  {
    var i := Par(j);
    var t := Swapped(ops, i, j);
    forall k | 0 < k < |t| && k != i
      ensures Below(rank, t, k)
    {
      if k != j {
        assert Below(rank, ops, k);
        if Par(k) == j {
          assert NotAfter(rank, ops[Par(j)], ops[k]);
        }
      }
    }
    forall k | 0 < k < |t| && Par(k) == i && i > 0
      ensures NotAfter(rank, t[Par(i)], t[k])
    {
      assert Below(rank, ops, i);
      if k != j {
        assert Below(rank, ops, k);
      }
    }
  }

  class ReadyHeap {
    var ops: seq<nat>
    const rank: seq<int>

    ghost predicate Valid()
      reads this
    {
      Ranked(ops, |rank|) && Heap(rank, ops)
    }

    /** heap.Init over the given ops. */
    constructor (ready: seq<nat>, rank: seq<int>)
      requires Ranked(ready, |rank|)
      ensures Valid() && this.rank == rank && multiset(ops) == multiset(ready)
    {
      this.ops, this.rank := ready, rank;
      new;
      for i := |ops| / 2 downto 0
        invariant Ranked(ops, |rank|) && |ops| == |ready| && multiset(ops) == multiset(ready)
        invariant forall k :: 0 < k < |ops| && Par(k) >= i ==> Below(rank, ops, k)
      {
        Down(i, |ops|);
      }
    }

    method Down(from: nat, n: nat)
      requires Ranked(ops, |rank|) && n <= |ops| && HeapBut(rank, ops, n, from, from)
      modifies this
      ensures Ranked(ops, |rank|) && |ops| == |old(ops)| && ops[n..] == old(ops)[n..]
      ensures multiset(ops) == multiset(old(ops))
      ensures forall k :: 0 < k < n && Par(k) >= from ==> Below(rank, ops, k)
    {
      hide HeapBut;
      var i := from;
      while 2 * i + 1 < n
        invariant from <= i && (i == from || Par(i) >= from)
        invariant Ranked(ops, |rank|) && |ops| == |old(ops)| && ops[n..] == old(ops)[n..]
        invariant multiset(ops) == multiset(old(ops)) && HeapBut(rank, ops, n, from, i)
        decreases n - i
      {
        var j := FirstChild(rank, ops, n, i);
        if !Before(rank, ops[j], ops[i]) {
          break;
        }
        DownSwap(rank, ops, n, from, i, j);
        SwappedMultiset(ops, i, j);
        ops := Swapped(ops, i, j);
        i := j;
      }
      DownDone(rank, ops, n, from, i);
    }

    method Up(last: nat)
      requires Ranked(ops, |rank|) && last < |ops| && HeapUpTo(rank, ops, last)
      modifies this
      ensures Valid() && multiset(ops) == multiset(old(ops))
    {
      var j: nat := last;
      while j > 0
        invariant Ranked(ops, |rank|) && j < |ops| && HeapUpTo(rank, ops, j) && multiset(ops) == multiset(old(ops))
      {
        if !Before(rank, ops[j], ops[Par(j)]) {
          break;
        }
        UpSwap(rank, ops, j);
        SwappedMultiset(ops, Par(j), j);
        ops := Swapped(ops, Par(j), j);
        j := Par(j);
      }
    }

    /** heap.Push. */
    method Push(x: nat)
      requires Valid() && x < |rank|
      modifies this
      ensures Valid() && multiset(ops) == multiset(old(ops)) + multiset{x}
    {
      ghost var was := ops;
      ops := ops + [x];
      forall k | 0 < k < |ops| - 1
        ensures Below(rank, ops, k)
      {
        assert Below(rank, was, k);
      }
      Up(|ops| - 1);
    }

    /** heap.Pop: takes out the first op. */
    method Pop() returns (x: nat)
      requires Valid() && |ops| > 0
      modifies this
      ensures Valid() && x < |rank| && multiset(old(ops)) == multiset(ops) + multiset{x}
      ensures forall y :: y in old(ops) ==> y < |rank| && NotAfter(rank, x, y)
    {
      hide Heap, HeapBut;
      ghost var was := ops;
      PopOrder(rank, ops);
      var n := |ops| - 1;
      SwappedMultiset(ops, 0, n);
      ops := Swapped(ops, 0, n);
      Down(0, n);
      x := ops[n];
      assert ops[n..][0] == was[0];
      assert ops == ops[..n] + [x];
      PopHeap(rank, ops, n);
      ops := ops[..n];
    }
  }

  /** The root is first, and with the last entry in its place only the root
      may be out of order. */
  lemma {:induction false} PopOrder(rank: seq<int>, ops: seq<nat>)
    requires Ranked(ops, |rank|) && Heap(rank, ops) && |ops| > 0
    ensures forall y :: y in ops ==> y < |rank| && NotAfter(rank, ops[0], y)
    ensures Ranked(Swapped(ops, 0, |ops| - 1), |rank|)
    ensures HeapBut(rank, Swapped(ops, 0, |ops| - 1), |ops| - 1, 0, 0)
  {
    forall y | y in ops
      ensures y < |rank| && NotAfter(rank, ops[0], y)
    {
      var k :| 0 <= k < |ops| && ops[k] == y;
      RootFirst(rank, ops, k);
    }
    var t := Swapped(ops, 0, |ops| - 1);
    forall k | 0 < k < |ops| - 1 && Par(k) != 0
      ensures Below(rank, t, k)
    {
      assert Below(rank, ops, k);
    }
  }

  lemma {:induction false} PopHeap(rank: seq<int>, ops: seq<nat>, n: nat)
    requires Ranked(ops, |rank|) && n <= |ops| && forall k :: 0 < k < n && Par(k) >= 0 ==> Below(rank, ops, k)
    ensures Heap(rank, ops[..n])
  {
    forall k | 0 < k < n
      ensures Below(rank, ops[..n], k)
    {
      assert Below(rank, ops, k);
    }
  }
}
