/** The when-block structure of a plan body: which when_begins are open where,
    and which when_end closes which when_begin. */
module Blocks {
  import opened Ops

  /** The when_begins still open before op k, outermost first.  A when_end
      closes the innermost one; with none open it closes nothing. */
  function OpenBefore(ops: seq<Op>, k: nat): (open: seq<nat>)
    requires k <= |ops|
    ensures forall i :: 0 <= i < |open| ==> open[i] < k && ops[open[i]].kind.KindWhenBegin?
    ensures forall i, j :: 0 <= i < j < |open| ==> open[i] < open[j]
  {
    if k == 0 then []
    else
      var open := OpenBefore(ops, k - 1);
      match ops[k - 1].kind
      case KindWhenBegin => open + [k - 1]
      case KindWhenEnd => if open == [] then [] else open[..|open| - 1]
      case _ => open
  }

  lemma {:induction false} OpenAfter(ops: seq<Op>, k: nat)
    requires k < |ops|
    ensures var open := OpenBefore(ops, k);
            OpenBefore(ops, k + 1) == match ops[k].kind
              case KindWhenBegin => open + [k]
              case KindWhenEnd => if open == [] then [] else open[..|open| - 1]
              case _ => open
  {
  }

  /** The when_end j closes the when_begin i. */
  predicate Matched(ops: seq<Op>, i: nat, j: nat) {
    j < |ops| && ops[j].kind.KindWhenEnd? &&
    var open := OpenBefore(ops, j);
    open != [] && open[|open| - 1] == i
  }

  /** Every when_begin is closed and every when_end closes one. */
  predicate Balanced(ops: seq<Op>) {
    OpenBefore(ops, |ops|) == [] &&
    forall j :: 0 <= j < |ops| && ops[j].kind.KindWhenEnd? ==> OpenBefore(ops, j) != []
  }

  lemma {:induction false} MatchedBegins(ops: seq<Op>, i: nat, j: nat)
    requires Matched(ops, i, j)
    ensures i < j && ops[i].kind.KindWhenBegin? && ops[j].kind.KindWhenEnd? && i in OpenBefore(ops, j)
  {
  }

  /** A block open at t has been open ever since it was opened. */
  lemma {:induction false} StaysOpen(ops: seq<Op>, i: nat, s: nat, t: nat)
    requires i < s <= t <= |ops| && i in OpenBefore(ops, t)
    ensures i in OpenBefore(ops, s)
    decreases t
  {
    if s < t {
      StaysOpen(ops, i, s, t - 1);
    }
  }

  /** Of two blocks with a common op the one closed first is inside the other. */
  lemma {:induction false} Nested(ops: seq<Op>, i: nat, j: nat, inner: nat, closed: nat)
    requires Matched(ops, i, j) && Matched(ops, inner, closed) && i <= closed < j
    ensures i <= inner
  {
    MatchedBegins(ops, i, j);
    MatchedBegins(ops, inner, closed);
    StaysOpen(ops, i, closed, j);
  }

  /** One when_end closes one when_begin, so blocks are equal or differ at both ends. */
  lemma {:induction false} SameEnd(ops: seq<Op>, i: nat, j: nat, k: nat)
    requires Matched(ops, i, j) && Matched(ops, k, j)
    ensures i == k
  {
  }

  /** A block open at s and not any more at t was closed in between. */
  lemma {:induction false} ClosedBetween(ops: seq<Op>, i: nat, s: nat, t: nat) returns (j: nat)
    requires s <= t <= |ops| && i in OpenBefore(ops, s) && i !in OpenBefore(ops, t)
    ensures s <= j < t && Matched(ops, i, j)
    decreases t
  {
    if i in OpenBefore(ops, t - 1) {
      j := t - 1;
      ClosedHere(ops, i, j);
    } else {
      j := ClosedBetween(ops, i, s, t - 1);
    }
  }

  lemma {:induction false} ClosedHere(ops: seq<Op>, i: nat, j: nat)
    requires j < |ops| && i in OpenBefore(ops, j) && i !in OpenBefore(ops, j + 1)
    ensures Matched(ops, i, j)
  {
    var open := OpenBefore(ops, j);
    assert forall k :: 0 <= k < |open| - 1 ==> open[..|open| - 1][k] == open[k];
    assert OpenBefore(ops, j + 1) == match ops[j].kind
      case KindWhenBegin => open + [j]
      case KindWhenEnd => if open == [] then [] else open[..|open| - 1]
      case _ => open;
  }

  /** Where no block is open the rest of the body has its own structure. */
  lemma {:induction false} OpenInPart(ops: seq<Op>, a: nat, b: nat, k: nat)
    requires a <= b <= |ops| && k <= b - a && OpenBefore(ops, a) == []
    ensures |OpenBefore(ops[a..b], k)| == |OpenBefore(ops, a + k)|
    ensures forall i :: 0 <= i < |OpenBefore(ops[a..b], k)| ==>
              OpenBefore(ops[a..b], k)[i] + a == OpenBefore(ops, a + k)[i]
    decreases k
  {
    if k > 0 {
      OpenInPart(ops, a, b, k - 1);
      assert ops[a..b][k - 1] == ops[a + k - 1];
    }
  }

  /** The two ops are the same control op, or both are resource ops. */
  predicate SameControl(a: Op, b: Op) {
    a.kind == b.kind || (!IsControlKind(a.kind) && !IsControlKind(b.kind))
  }

  /** The structure before k depends on the control ops among the first k. */
  lemma {:induction false} OpenPrefix(ops: seq<Op>, more: seq<Op>, k: nat)
    requires k <= |ops| && k <= |more| && forall i :: 0 <= i < k ==> SameControl(ops[i], more[i])
    ensures OpenBefore(ops, k) == OpenBefore(more, k)
  {
    if k > 0 {
      OpenPrefix(ops, more, k - 1);
    }
  }

  lemma {:induction false} BalancedFacts(ops: seq<Op>, j: nat)
    requires Balanced(ops) && j < |ops| && ops[j].kind.KindWhenEnd?
    ensures OpenBefore(ops, j) != []
  {
  }

  lemma {:induction false} ConcatParts(a: seq<Op>, b: seq<Op>)
    ensures |a + b| == |a| + |b| && (a + b)[|a|..|a + b|] == b
    ensures forall i :: 0 <= i < |a| ==> (a + b)[i] == a[i]
    ensures forall i :: 0 <= i < |b| ==> (a + b)[|a| + i] == b[i]
  {
  }

  /** Two balanced bodies one after the other are balanced. */
  lemma {:induction false} BalancedConcat(a: seq<Op>, b: seq<Op>)
    requires Balanced(a) && Balanced(b)
    ensures Balanced(a + b)
  {
    hide OpenBefore;
    var ops := a + b;
    ConcatParts(a, b);
    OpenPrefix(a, ops, |a|);
    OpenInPart(ops, |a|, |ops|, |b|);
    forall j: nat | j < |ops| && ops[j].kind.KindWhenEnd?
      ensures OpenBefore(ops, j) != []
    {
      if j < |a| {
        BalancedFacts(a, j);
        OpenPrefix(a, ops, j);
      } else {
        assert ops[|a| + (j - |a|)] == b[j - |a|];
        BalancedFacts(b, j - |a|);
        OpenInPart(ops, |a|, |ops|, j - |a|);
      }
    }
  }

  function DepthAfter(depth: nat, kind: Kind): nat {
    match kind
    case KindWhenBegin => depth + 1
    case KindWhenEnd => if depth > 0 then depth - 1 else 0
    case _ => depth
  }

  lemma {:induction false} DepthStep(ops: seq<Op>, k: nat)
    requires k < |ops|
    ensures |OpenBefore(ops, k + 1)| == DepthAfter(|OpenBefore(ops, k)|, ops[k].kind)
  {
  }

  lemma {:induction false} ClosesSome(body: seq<Op>, j: nat)
    requires Balanced(body) && j < |body| && body[j].kind.KindWhenEnd?
    ensures |OpenBefore(body, j)| > 0
  {
  }

  /** Behind one more when_begin a balanced body is one level deeper. */
  lemma {:induction false} OneDeeper(begin: Op, body: seq<Op>, end: Op, k: nat)
    requires Balanced(body) && k <= |body| && begin.kind.KindWhenBegin?
    ensures |OpenBefore([begin] + body + [end], k + 1)| == 1 + |OpenBefore(body, k)|
  {
    hide Balanced, OpenBefore;
    var ops := [begin] + body + [end];
    WrappedLines(begin, body, end);
    DepthStep(ops, k);
    if k == 0 {
      NothingOpenYet(ops);
      NothingOpenYet(body);
    } else {
      OneDeeper(begin, body, end, k - 1);
      DepthStep(body, k - 1);
      assert ops[k] == body[k - 1];
      if body[k - 1].kind.KindWhenEnd? {
        ClosesSome(body, k - 1);
      }
    }
  }

  lemma {:induction false} NothingOpenYet(ops: seq<Op>)
    ensures OpenBefore(ops, 0) == []
  {
  }

  /** A when-block around a balanced body is balanced. */
  lemma {:induction false} Wrapped(begin: Op, body: seq<Op>, end: Op)
    requires Balanced(body) && begin.kind.KindWhenBegin? && end.kind.KindWhenEnd?
    ensures Balanced([begin] + body + [end])
  {
    var ops, n := [begin] + body + [end], |body|;
    WrappedLines(begin, body, end);
    hide OpenBefore;
    OneDeeper(begin, body, end, n);
    forall j | 0 < j < |ops|
      ensures OpenBefore(ops, j) != []
    {
      OneDeeper(begin, body, end, j - 1);
    }
    DepthStep(ops, n + 1);
  }

  lemma {:induction false} WrappedLines(begin: Op, body: seq<Op>, end: Op)
    ensures var ops := [begin] + body + [end];
            && |ops| == |body| + 2 && ops[0] == begin && ops[|body| + 1] == end
            && forall i :: 0 <= i < |body| ==> ops[i + 1] == body[i]
  {
  }
}
