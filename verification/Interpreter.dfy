/** The plan interpreter of plan/apply.go: applyBody and applyLine. */
module Interpreter {
  import opened Ops
  import opened Blocks
  import opened Guards

  /** What the host and the caller do while one line applies: whether the apply
      was cancelled before it, which paths exist, and whether the op's handler
      succeeds. */
  datatype Moment = Moment(cancelled: bool, path: string -> Eval, works: bool)

  /** How the guard of line k evaluates at its own moment. */
  function GuardAt(ops: seq<Op>, facts: Facts, world: seq<Moment>, k: nat): Eval
    requires k < |ops| == |world|
  {
    EvalAll(ops[k].all, facts, world[k].path)
  }

  /** Every when_begin open before line k held when it was reached. */
  predicate Active(ops: seq<Op>, facts: Facts, world: seq<Moment>, k: nat)
    requires k <= |ops| == |world|
  {
    forall i :: 0 <= i < |OpenBefore(ops, k)| ==> GuardAt(ops, facts, world, OpenBefore(ops, k)[i]) == Holds
  }

  datatype End =
    | Finished
    | Unclosed
    | Cancelled(at: nat)
    | GuardError(at: nat)
    | Unmet(at: nat)
    | NoBegin(at: nat)
    | SecondHeader(at: nat)
    | OpFailed(at: nat)

  /** A guard whose evaluation ends the apply: an error, or a requirement that
      does not hold. */
  predicate GuardRefuses(ops: seq<Op>, facts: Facts, world: seq<Moment>, k: nat)
    requires k < |ops| == |world|
  {
    ops[k].kind.KindWhenBegin? && Active(ops, facts, world, k) &&
    (GuardAt(ops, facts, world, k) == EvalError || (GuardAt(ops, facts, world, k) == Fails && ops[k].require != ""))
  }

  /** How line k ends the apply; Finished if it does not. */
  function LineEnd(ops: seq<Op>, facts: Facts, world: seq<Moment>, k: nat): End
    requires k < |ops| == |world|
  {
    if world[k].cancelled then Cancelled(k)
    else match ops[k].kind
      case KindWhenBegin =>
        if !GuardRefuses(ops, facts, world, k) then Finished
        else if GuardAt(ops, facts, world, k) == EvalError then GuardError(k) else Unmet(k)
      case KindWhenEnd => if OpenBefore(ops, k) == [] then NoBegin(k) else Finished
      case KindPlan => SecondHeader(k)
      case _ => if Active(ops, facts, world, k) && !world[k].works then OpFailed(k) else Finished
  }

  /** The resource ops among the first n lines that are not skipped. */
  function Executed(ops: seq<Op>, facts: Facts, world: seq<Moment>, n: nat): seq<nat>
    requires n <= |ops| == |world|
  {
    if n == 0 then []
    else
      Executed(ops, facts, world, n - 1) +
      (if !IsControlKind(ops[n - 1].kind) && Active(ops, facts, world, n - 1) then [n - 1] else [])
  }

  /** No line before n ends the apply. */
  ghost predicate Runs(ops: seq<Op>, facts: Facts, world: seq<Moment>, n: nat)
    requires n <= |ops| == |world|
  {
    forall k: nat :: k < n ==> LineEnd(ops, facts, world, k) == Finished
  }

  /** What an apply does: the ops it applied and how it ended. */
  ghost predicate Applies(ops: seq<Op>, facts: Facts, world: seq<Moment>, applied: seq<nat>, end: End)
    requires |ops| == |world|
  {
    if end.Finished? || end.Unclosed? then
      && Runs(ops, facts, world, |ops|) && applied == Executed(ops, facts, world, |ops|)
      && (end.Finished? <==> OpenBefore(ops, |ops|) == [])
    else
      && end.at < |ops| && Runs(ops, facts, world, end.at) && LineEnd(ops, facts, world, end.at) == end
      && applied == Executed(ops, facts, world, end.at)
  }

  /** An apply has one outcome. */
  lemma {:induction false} OneOutcome(ops: seq<Op>, facts: Facts, world: seq<Moment>, applied: seq<nat>, end: End,
                                      applied': seq<nat>, end': End)
    requires |ops| == |world| && Applies(ops, facts, world, applied, end) && Applies(ops, facts, world, applied', end')
    ensures applied == applied' && end == end'
  {
    hide LineEnd, Executed;
    LineEndAt(ops, facts, world);
  }

  lemma {:induction false} LineEndAt(ops: seq<Op>, facts: Facts, world: seq<Moment>)
    requires |ops| == |world|
    ensures forall k :: 0 <= k < |ops| ==> LineEnd(ops, facts, world, k) != Unclosed
  {
  }

  /** The when-stack: entry i says whether the open when_begins up to the i-th
      all held. */
  ghost predicate StackTells(ops: seq<Op>, facts: Facts, world: seq<Moment>, k: nat, stack: seq<bool>)
    requires k <= |ops| == |world|
  {
    && |stack| == |OpenBefore(ops, k)|
    && forall i :: 0 <= i < |stack| ==>
         (stack[i] <==> forall j :: 0 <= j <= i ==> GuardAt(ops, facts, world, OpenBefore(ops, k)[j]) == Holds)
  }

  function WhenActive(stack: seq<bool>): bool {
    if |stack| == 0 then true else stack[|stack| - 1]
  }

  lemma {:induction false} StackActive(ops: seq<Op>, facts: Facts, world: seq<Moment>, k: nat, stack: seq<bool>)
    requires k <= |ops| == |world| && StackTells(ops, facts, world, k, stack)
    ensures WhenActive(stack) <==> Active(ops, facts, world, k)
  {
  }

  function Pushed(ops: seq<Op>, facts: Facts, world: seq<Moment>, k: nat, stack: seq<bool>): seq<bool>
    requires k < |ops| == |world|
  {
    stack + [WhenActive(stack) && GuardAt(ops, facts, world, k) == Holds]
  }

  function Popped(stack: seq<bool>): seq<bool> {
    if |stack| > 0 then stack[..|stack| - 1] else stack
  }

  lemma {:induction false} StackPushed(ops: seq<Op>, facts: Facts, world: seq<Moment>, k: nat, stack: seq<bool>)
    requires k < |ops| == |world| && StackTells(ops, facts, world, k, stack) && ops[k].kind.KindWhenBegin?
    ensures StackTells(ops, facts, world, k + 1, Pushed(ops, facts, world, k, stack))
  {
    hide GuardAt;
    var open, next := OpenBefore(ops, k), Pushed(ops, facts, world, k, stack);
    assert OpenBefore(ops, k + 1) == open + [k];
    assert forall j :: 0 <= j < |open| ==> (open + [k])[j] == open[j];
    assert (open + [k])[|open|] == k;
    StackActive(ops, facts, world, k, stack);
  }

  lemma {:induction false} StackPopped(ops: seq<Op>, facts: Facts, world: seq<Moment>, k: nat, stack: seq<bool>)
    requires k < |ops| == |world| && StackTells(ops, facts, world, k, stack) && ops[k].kind.KindWhenEnd?
    ensures StackTells(ops, facts, world, k + 1, Popped(stack))
  {
    hide GuardAt, OpenBefore;
    var open, next := OpenBefore(ops, k), OpenBefore(ops, k + 1);
    OpenAfter(ops, k);
    assert forall j :: 0 <= j < |next| ==> next[j] == open[j];
  }

  lemma {:induction false} StackSame(ops: seq<Op>, facts: Facts, world: seq<Moment>, k: nat, stack: seq<bool>)
    requires k < |ops| == |world| && StackTells(ops, facts, world, k, stack)
    requires !ops[k].kind.KindWhenBegin? && !ops[k].kind.KindWhenEnd?
    ensures StackTells(ops, facts, world, k + 1, stack)
  {
    hide GuardAt;
    assert OpenBefore(ops, k + 1) == OpenBefore(ops, k);
  }

  /** applyLine: the new when-stack, whether the op ran, and how the line ends
      the apply. */
  method ApplyLine(ops: seq<Op>, facts: Facts, world: seq<Moment>, k: nat, was: seq<bool>)
    returns (stack: seq<bool>, ran: bool, end: End)
    requires k < |ops| == |world| && StackTells(ops, facts, world, k, was) && !world[k].cancelled
    ensures end == LineEnd(ops, facts, world, k)
    ensures end.Finished? ==> StackTells(ops, facts, world, k + 1, stack)
    ensures end.Finished? ==> (ran <==> !IsControlKind(ops[k].kind) && Active(ops, facts, world, k))
  {
    hide StackTells;
    StackActive(ops, facts, world, k, was);
    StackDepth(ops, facts, world, k, was);
    var active := WhenActive(was);
    stack, ran, end := was, false, Finished;
    match ops[k].kind {
      case KindWhenBegin =>
        var ok := false;
        if active {
          var guard := EvalAll(ops[k].all, facts, world[k].path);
          if guard == EvalError {
            end := GuardError(k);
            return;
          }
          ok := guard == Holds;
          if !ok && ops[k].require != "" {
            end := Unmet(k);
            return;
          }
        }
        StackPushed(ops, facts, world, k, was);
        stack := was + [active && ok];
        assert stack == Pushed(ops, facts, world, k, was);
      case KindWhenEnd =>
        if |was| == 0 {
          end := NoBegin(k);
          return;
        }
        StackPopped(ops, facts, world, k, was);
        stack := was[..|was| - 1];
      case KindPlan =>
        end := SecondHeader(k);
      case _ =>
        StackSame(ops, facts, world, k, was);
        if active {
          if !world[k].works {
            end := OpFailed(k);
            return;
          }
          ran := true;
        }
    }
  }

  lemma {:induction false} StackDepth(ops: seq<Op>, facts: Facts, world: seq<Moment>, k: nat, stack: seq<bool>)
    requires k <= |ops| == |world| && StackTells(ops, facts, world, k, stack)
    ensures |stack| == |OpenBefore(ops, k)|
  {
  }

  /** applyBody. */
  method ApplyBody(ops: seq<Op>, facts: Facts, world: seq<Moment>) returns (applied: seq<nat>, end: End)
    requires |ops| == |world|
    ensures Applies(ops, facts, world, applied, end)
  {
    hide StackTells, LineEnd, Active;
    var stack: seq<bool> := [];
    applied := [];
    NothingOpen(ops, facts, world);
    for k := 0 to |ops|
      invariant StackTells(ops, facts, world, k, stack)
      invariant Runs(ops, facts, world, k) && applied == Executed(ops, facts, world, k)
    {
      if world[k].cancelled {
        CancelledEnd(ops, facts, world, k);
        return applied, Cancelled(k);
      }
      var ran;
      stack, ran, end := ApplyLine(ops, facts, world, k, stack);
      if !end.Finished? {
        LineEndHere(ops, facts, world, k);
        return;
      }
      if ran {
        applied := applied + [k];
      }
    }
    StackDepth(ops, facts, world, |ops|, stack);
    if |stack| != 0 {
      return applied, Unclosed;
    }
    end := Finished;
  }

  lemma {:induction false} NothingOpen(ops: seq<Op>, facts: Facts, world: seq<Moment>)
    requires |ops| == |world|
    ensures StackTells(ops, facts, world, 0, [])
  {
  }

  lemma {:induction false} CancelledEnd(ops: seq<Op>, facts: Facts, world: seq<Moment>, k: nat)
    requires k < |ops| == |world| && world[k].cancelled
    ensures LineEnd(ops, facts, world, k) == Cancelled(k)
  {
  }

  lemma {:induction false} LineEndHere(ops: seq<Op>, facts: Facts, world: seq<Moment>, k: nat)
    requires k < |ops| == |world|
    ensures var end := LineEnd(ops, facts, world, k); end.Finished? || (!end.Unclosed? && end.at == k)
  {
  }
}
