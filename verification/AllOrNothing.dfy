/** Requirements are all-or-nothing across chunks: if the check of any chunk
    would refuse a requirement, the first chunk's check already refuses. */
module AllOrNothing {
  import opened Ops
  import opened Blocks
  import opened Guards
  import opened Interpreter
  import opened Splits
  import opened Requirements
  import opened SplitMeaning

  /** The guard k of ops refuses somewhere, at some moment. */
  ghost predicate Refusing(ops: seq<Op>, facts: Facts, world: seq<Moment>) {
    |ops| == |world| && exists k :: 0 <= k < |ops| && GuardRefuses(ops, facts, world, k)
  }

  lemma {:induction false} Middle(front: seq<Op>, mid: seq<Op>, back: seq<Op>)
    ensures (front + mid + back)[|front|..|front| + |mid|] == mid
    ensures (front + mid + back)[..|front|] == front
    ensures (front + mid + back)[..|front| + |mid|] == front + mid
  {
  }

  /** A refusing stub list refuses behind and before other lines too. */
  lemma {:induction false} RefusesWithin(front: seq<Op>, stubs: seq<Op>, back: seq<Op>, facts: Facts,
                                         world: seq<Moment>, other: seq<Moment>,
                      k: nat)
    requires StubList(front) && StubList(stubs) && |world| == |stubs| && |other| == |front + stubs + back|
    requires k < |stubs| && GuardRefuses(stubs, facts, world, k)
    ensures GuardRefuses(front + stubs + back, facts, other, |front| + k)
  {
    var ops, a, b := front + stubs + back, |front|, |front| + |stubs|;
    Middle(front, stubs, back);
    hide StubList, GuardRefuses;
    assert stubs[..|stubs|] == stubs;
    StubRefuses(stubs, |stubs|, facts, world, other[a..b], k);
    StubsFirstOpen(ops, a, a);
    ShiftLine(ops, facts, other, a, b, k);
  }

  /** Entry i of the stub of requirement r is the i-th block around it. */
  lemma {:induction false} StubGuards(ops: seq<Op>, facts: Facts, world: seq<Moment>, r: nat, i: nat,
                                      stubWorld: seq<Moment>)
    requires r < |ops| == |world| && IsRequirement(ops[r]) && HostChain(Chain(ops, r)) && i < |OpenBefore(ops, r + 1)|
    requires |stubWorld| == |Stub(Chain(ops, r))|
    requires GuardRefuses(ops, facts, world, OpenBefore(ops, r + 1)[i])
    ensures GuardRefuses(Stub(Chain(ops, r)), facts, stubWorld, i)
  {
    var open, chain, stub := OpenBefore(ops, r + 1), Chain(ops, r), Stub(Chain(ops, r));
    ChainBegins(ops, r);
    StubOpen(chain, i);
    OpenAround(ops, r, i);
    hide OpenBefore, GuardAt;
    forall j | 0 <= j < i
      ensures GuardAt(stub, facts, stubWorld, j) == Holds
    {
      assert HostOnly(chain[j]) && stub[j] == ops[open[j]];
      SameGuard(ops, world, open[j], stub, stubWorld, j, facts);
      assert OpenBefore(ops, open[i])[j] == open[j];
    }
    assert HostOnly(chain[i]) && stub[i] == ops[open[i]];
    SameGuard(ops, world, open[i], stub, stubWorld, i, facts);
  }

  /** The blocks open before the i-th block around r are the i outer ones. */
  lemma {:induction false} OpenAround(ops: seq<Op>, r: nat, i: nat)
    requires r < |ops| && i < |OpenBefore(ops, r + 1)|
    ensures OpenBefore(ops, OpenBefore(ops, r + 1)[i]) == OpenBefore(ops, r + 1)[..i]
  {
    OpenAroundAt(ops, r + 1, i);
  }

  lemma {:induction false} OpenAroundAt(ops: seq<Op>, n: nat, i: nat)
    requires n <= |ops| && i < |OpenBefore(ops, n)|
    ensures OpenBefore(ops, OpenBefore(ops, n)[i]) == OpenBefore(ops, n)[..i]
    decreases n
  {
    var was, now := OpenBefore(ops, n - 1), OpenBefore(ops, n);
    assert now == match ops[n - 1].kind
      case KindWhenBegin => was + [n - 1]
      case KindWhenEnd => if was == [] then [] else was[..|was| - 1]
      case _ => was;
    if i < |was| {
      OpenAroundAt(ops, n - 1, i);
      assert now[..i] == was[..i];
    } else {
      assert now[..i] == was;
    }
  }

  /** The stub of requirement r is a stretch of the chunk's stubs. */
  lemma {:induction false} StubInStubs(ops: seq<Op>, n: nat, r: nat) returns (back: seq<Op>)
    requires r < n <= |ops| && IsRequirement(ops[r]) && HostChain(Chain(ops, r))
    ensures Stubs(ops, n) == Stubs(ops, r) + Stub(Chain(ops, r)) + back
    ensures StubList(back)
    decreases n
  {
    hide StubList, Chain;
    if n == r + 1 {
      NoStubs();
      back := [];
      assert Stubs(ops, n) == Stubs(ops, r) + Stub(Chain(ops, r));
    } else {
      var inner := StubInStubs(ops, n - 1, r);
      StubAtIsList(ops, n - 1);
      StubListConcat(inner, StubAt(ops, n - 1));
      back := inner + StubAt(ops, n - 1);
      assert Stubs(ops, n) == Stubs(ops, r) + Stub(Chain(ops, r)) + inner + StubAt(ops, n - 1);
    }
  }

  /** A guard of a chunk that is, or is around, a requirement refuses in the
      stubs of that chunk too. */
  lemma {:induction false} GuardStubRefuses(ops: seq<Op>, facts: Facts, world: seq<Moment>, k: nat, r: nat,
                                            stubWorld: seq<Moment>) returns (at: nat)
    requires k <= r < |ops| == |world| && ScopesOk(ops) && IsRequirement(ops[r]) && k in OpenBefore(ops, r + 1)
    requires GuardRefuses(ops, facts, world, k) && |stubWorld| == |Stubs(ops, |ops|)|
    ensures at < |stubWorld| && GuardRefuses(Stubs(ops, |ops|), facts, stubWorld, at)
  {
    hide ScopesOk, OpenBefore, Stubs, GuardRefuses, StubList, GuardAt, Active;
    InScope(ops, r);
    var chain := Chain(ops, r);
    var i: nat :| i < |OpenBefore(ops, r + 1)| && OpenBefore(ops, r + 1)[i] == k;
    var back := StubInStubs(ops, |ops|, r);
    StubsAreList(ops, r);
    StubAtIsList(ops, r);
    hide Chain, HostChain, Stub;
    var any := seq(|Stub(chain)|, _ requires true => world[k]);
    StubGuards(ops, facts, world, r, i, any);
    StubLength(chain);
    ChainLength(ops, r);
    RefusesWithin(Stubs(ops, r), Stub(chain), back, facts, any, stubWorld, i);
    at := |Stubs(ops, r)| + i;
  }

  lemma {:induction false} InScope(ops: seq<Op>, r: nat)
    requires ScopesOk(ops) && r < |ops| && IsRequirement(ops[r])
    ensures HostChain(Chain(ops, r))
  {
  }

  lemma {:induction false} StubLength(chain: seq<Op>)
    ensures |Stub(chain)| == 2 * |chain|
  {
  }

  lemma {:induction false} ChainLength(ops: seq<Op>, r: nat)
    requires r < |ops|
    ensures |Chain(ops, r)| == |OpenBefore(ops, r + 1)|
  {
  }

  /** The stubs of chunk c, and those of all chunks after it, are stretches of
      the first chunk's. */
  lemma {:induction false} PendingAfter(chunks: seq<Chunk>, from: nat, c: nat) returns (front: seq<Op>)
    requires from <= c <= |chunks|
    ensures Pending(chunks, from) == front + Pending(chunks, c) && StubList(front)
    decreases c - from
  {
    hide *;
    NoStubs();
    if from == c {
      front := [];
      assert [] + Pending(chunks, c) == Pending(chunks, c);
    } else {
      PendingNext(chunks, from);
      var rest := PendingAfter(chunks, from + 1, c);
      StubsAreList(chunks[from].ops, |chunks[from].ops|);
      StubListConcat(Stubs(chunks[from].ops, |chunks[from].ops|), rest);
      front := Stubs(chunks[from].ops, |chunks[from].ops|) + rest;
      assert Pending(chunks, from) == Stubs(chunks[from].ops, |chunks[from].ops|) + (rest + Pending(chunks, c));
    }
  }

  /** Guard k of a chunk's own ops is, or is around, one of its requirements. */
  ghost predicate GuardsRequirement(ops: seq<Op>, k: nat) {
    exists r :: k <= r < |ops| && IsRequirement(ops[r]) && k in OpenBefore(ops, r + 1)
  }

  /** The lines of chunk c after its header: first the stubs of the chunks
      after it, then its own part. */
  function Lines(chunks: seq<Chunk>, c: nat): seq<Op>
    requires c < |chunks|
  {
    Pending(chunks, c + 1) + OwnPart(chunks[c])
  }

  function OwnPart(chunk: Chunk): seq<Op> {
    if |chunk.ops| > 0 then chunk.ops[1..] else []
  }

  lemma {:induction false} HoistedLines(chunks: seq<Chunk>, out: seq<Chunk>, c: nat)
    requires Hoisted(chunks, out) && c < |chunks|
    ensures |out| == |chunks| && OwnPart(out[c]) == Lines(chunks, c)
  {
    hide Pending;
    assert out[c] == WithStubs(chunks[c], Pending(chunks, c + 1));
    assert out[c].ops == [chunks[c].ops[0]] + Lines(chunks, c);
  }

  lemma {:induction false} LineParts(chunks: seq<Chunk>, c: nat)
    requires c < |chunks|
    ensures StubsFirst(Lines(chunks, c), |Pending(chunks, c + 1)|)
    ensures Lines(chunks, c)[|Pending(chunks, c + 1)|..] == OwnPart(chunks[c])
    ensures Lines(chunks, c) == Pending(chunks, c + 1) + OwnPart(chunks[c])
  {
    PendingIsList(chunks, c + 1);
    assert Lines(chunks, c)[..|Pending(chunks, c + 1)|] == Pending(chunks, c + 1);
  }

  /** A refusing stretch of the stubs made for the first chunk makes the first
      chunk refuse. */
  lemma {:induction false} PendingRefuses(chunks: seq<Chunk>, c: nat, stubs: seq<Op>, back: seq<Op>, facts: Facts,
                                          world: seq<Moment>, k: nat,
                       first: seq<Moment>)
    requires 0 < c <= |chunks| && Pending(chunks, c) == stubs + back && StubList(stubs)
    requires k < |stubs| == |world| && GuardRefuses(stubs, facts, world, k)
    requires |first| == |Lines(chunks, 0)|
    ensures Refusing(Lines(chunks, 0), facts, first) && HasRequire(Lines(chunks, 0))
  {
    hide *;
    var front := PendingAfter(chunks, 1, c);
    LineParts(chunks, 0);
    var own, at := OwnPart(chunks[0]), |front| + k;
    assert Lines(chunks, 0) == front + stubs + (back + own) by {
      assert front + (stubs + back) + own == front + stubs + (back + own);
    }
    RefusesWithin(front, stubs, back + own, facts, world, first, k);
    RefusingAt(Lines(chunks, 0), facts, first, at);
    StubsFirstRequire(Lines(chunks, 0), |Pending(chunks, 1)|);
  }

  lemma {:induction false} RefusingAt(ops: seq<Op>, facts: Facts, world: seq<Moment>, at: nat)
    requires at < |ops| == |world| && GuardRefuses(ops, facts, world, at)
    ensures Refusing(ops, facts, world)
  {
  }

  /** A chunk as the split produces it, with its requirements in scope. */
  ghost predicate PlanChunk(chunk: Chunk) {
    |chunk.ops| > 0 && chunk.ops[0].kind.KindPlan? && ScopesOk(chunk.ops)
  }

  /** A guard around a requirement keeps both roles in a stretch of the lines. */
  lemma {:induction false} GuardInStretch(ops: seq<Op>, facts: Facts, world: seq<Moment>, a: nat, k: nat, r: nat)
    requires Stretch(ops, world, a, |ops|) && k <= r < |ops| - a
    ensures IsRequirement(ops[a..][r]) == IsRequirement(ops[a + r])
    ensures k in OpenBefore(ops[a..], r + 1) <==> a + k in OpenBefore(ops, a + r + 1)
    ensures GuardRefuses(ops[a..], facts, world[a..], k) <==> GuardRefuses(ops, facts, world, a + k)
  {
    var n := |ops|;
    assert ops[a..n] == ops[a..] && world[a..n] == world[a..];
    OpenInPart(ops, a, n, r + 1);
    ShiftLine(ops, facts, world, a, n, k);
    hide GuardRefuses;
    SameMembers(OpenBefore(ops[a..], r + 1), OpenBefore(ops, a + r + 1), a, k);
  }

  lemma {:induction false} SameMembers(part: seq<nat>, whole: seq<nat>, a: nat, k: nat)
    requires |part| == |whole| && forall i :: 0 <= i < |part| ==> part[i] + a == whole[i]
    ensures k in part <==> a + k in whole
  {
    if k in part {
      var i :| 0 <= i < |part| && part[i] == k;
      assert whole[i] == a + k;
    }
    if a + k in whole {
      var i :| 0 <= i < |whole| && whole[i] == a + k;
      assert part[i] == k;
    }
  }

  /** A refusing guard of a chunk's own part, around one of its requirements,
      refuses in the stubs made of the chunk. */
  lemma {:induction false} OwnGuardRefuses(chunk: Chunk, facts: Facts, world: seq<Moment>, k: nat,
                                           stubWorld: seq<Moment>) returns (at: nat)
    requires PlanChunk(chunk) && |world| == |chunk.ops| - 1 && k < |world|
    requires GuardRefuses(chunk.ops[1..], facts, world, k) && GuardsRequirement(chunk.ops[1..], k)
    requires |stubWorld| == |Stubs(chunk.ops, |chunk.ops|)|
    ensures at < |stubWorld| && GuardRefuses(Stubs(chunk.ops, |chunk.ops|), facts, stubWorld, at)
  {
    hide GuardRefuses, OpenBefore, Stubs, ScopesOk, IsRequirement, Active, GuardAt;
    var ops := chunk.ops;
    var r := RequirementAround(ops[1..], k);
    var all := [world[0]] + world;
    assert all[1..] == world;
    HeaderOpensNothing(ops);
    GuardInStretch(ops, facts, all, 1, k, r);
    assert 1 + r + 1 == (r + 1) + 1;
    at := GuardStubRefuses(ops, facts, all, 1 + k, 1 + r, stubWorld);
  }

  lemma {:induction false} RequirementAround(ops: seq<Op>, k: nat) returns (r: nat)
    requires GuardsRequirement(ops, k)
    ensures k <= r < |ops| && IsRequirement(ops[r]) && k in OpenBefore(ops, r + 1)
  {
    r :| k <= r < |ops| && IsRequirement(ops[r]) && k in OpenBefore(ops, r + 1);
  }

  lemma {:induction false} HeaderOpensNothing(ops: seq<Op>)
    requires |ops| > 0 && ops[0].kind.KindPlan?
    ensures OpenBefore(ops, 1) == []
  {
    assert OpenBefore(ops, 0) == [];
  }

  /** A line behind the stubs is a line of the chunk's own part. */
  lemma {:induction false} OwnLine(ops: seq<Op>, a: nat, facts: Facts, world: seq<Moment>, k: nat)
    requires StubsFirst(ops, a) && |world| == |ops| && a <= k < |world|
    requires GuardRefuses(ops, facts, world, k) && GuardsRequirement(ops, k)
    ensures GuardRefuses(ops[a..], facts, world[a..], k - a) && GuardsRequirement(ops[a..], k - a)
  {
    hide *;
    StubsFirstRange(ops, a);
    var r := RequirementAround(ops, k);
    StubsFirstOpen(ops, a, a);
    StretchAt(ops, world, a);
    GuardInStretch(ops, facts, world, a, k - a, r - a);
    assert a + (r - a) + 1 == r + 1 && a + (k - a) == k && a + (r - a) == r;
    AroundRequirement(ops[a..], k - a, r - a);
  }

  lemma {:induction false} StretchAt(ops: seq<Op>, world: seq<Moment>, a: nat)
    requires |ops| == |world| && a <= |ops| && OpenBefore(ops, a) == []
    ensures Stretch(ops, world, a, |ops|)
  {
  }

  lemma {:induction false} AroundRequirement(ops: seq<Op>, k: nat, r: nat)
    requires k <= r < |ops| && IsRequirement(ops[r]) && k in OpenBefore(ops, r + 1)
    ensures GuardsRequirement(ops, k)
  {
  }

  lemma {:induction false} StubLineRefuses(ops: seq<Op>, a: nat, facts: Facts, world: seq<Moment>, k: nat)
    requires StubsFirst(ops, a) && |world| == |ops| && k < a
    requires GuardRefuses(ops, facts, world, k)
    ensures GuardRefuses(ops[..a], facts, world[..a], k)
  {
    hide *;
    StubsFirstRange(ops, a);
    assert ops[0..a] == ops[..a] && world[0..a] == world[..a];
    FromStart(ops, world, a);
    ShiftLine(ops, facts, world, 0, a, k);
  }

  lemma {:induction false} FromStart(ops: seq<Op>, world: seq<Moment>, a: nat)
    requires |ops| == |world| && a <= |ops|
    ensures Stretch(ops, world, 0, a)
  {
    assert OpenBefore(ops, 0) == [];
  }

  /** All or nothing.  When the check of a later chunk meets a guard that
      refuses, be it a requirement, a block around one or one of the chunk's
      stubs, the first chunk's check refuses too, whatever paths exist then. */
  lemma {:induction false} FirstChunkRefuses(chunks: seq<Chunk>, c: nat, facts: Facts, world: seq<Moment>, k: nat,
                                             first: seq<Moment>)
    requires 0 < c < |chunks| && PlanChunk(chunks[c])
    requires |world| == |Lines(chunks, c)| && |first| == |Lines(chunks, 0)| && k < |world|
    requires GuardRefuses(Lines(chunks, c), facts, world, k)
    requires k < |Pending(chunks, c + 1)| || GuardsRequirement(Lines(chunks, c), k)
    ensures Refusing(Lines(chunks, 0), facts, first) && HasRequire(Lines(chunks, 0))
  {
    hide *;
    var a := |Pending(chunks, c + 1)|;
    LineParts(chunks, c);
    if k < a {
      FirstRefusesForStub(chunks, c, facts, world, k, first);
    } else {
      PlanChunkSize(chunks[c]);
      OwnLine(Lines(chunks, c), a, facts, world, k);
      FirstRefusesForOwn(chunks, c, facts, world[a..], k - a, first);
    }
  }

  lemma {:induction false} PlanChunkSize(chunk: Chunk)
    requires PlanChunk(chunk)
    ensures |chunk.ops| > 0 && OwnPart(chunk) == chunk.ops[1..] && chunk.ops[0].kind.KindPlan?
  {
  }

  lemma {:induction false} FirstRefusesForStub(chunks: seq<Chunk>, c: nat, facts: Facts, world: seq<Moment>, k: nat,
                                               first: seq<Moment>)
    requires 0 < c < |chunks| && |world| == |Lines(chunks, c)| && |first| == |Lines(chunks, 0)|
    requires k < |Pending(chunks, c + 1)| && GuardRefuses(Lines(chunks, c), facts, world, k)
    ensures Refusing(Lines(chunks, 0), facts, first) && HasRequire(Lines(chunks, 0))
  {
    var stubs := Pending(chunks, c + 1);
    LineParts(chunks, c);
    PendingIsList(chunks, c + 1);
    hide GuardRefuses, StubList, StubsFirst, Refusing, HasRequire, Pending;
    assert Lines(chunks, c)[..|stubs|] == stubs && stubs + [] == stubs;
    StubLineRefuses(Lines(chunks, c), |stubs|, facts, world, k);
    PendingRefuses(chunks, c + 1, stubs, [], facts, world[..|stubs|], k, first);
  }

  lemma {:induction false} FirstRefusesForOwn(chunks: seq<Chunk>, c: nat, facts: Facts, world: seq<Moment>, k: nat,
                                              first: seq<Moment>)
    requires 0 < c < |chunks| && PlanChunk(chunks[c]) && |first| == |Lines(chunks, 0)|
    requires k < |world| == |chunks[c].ops| - 1
    requires GuardRefuses(chunks[c].ops[1..], facts, world, k) && GuardsRequirement(chunks[c].ops[1..], k)
    ensures Refusing(Lines(chunks, 0), facts, first) && HasRequire(Lines(chunks, 0))
  {
    hide GuardRefuses, GuardsRequirement, StubList, Stubs, Refusing, HasRequire, PlanChunk;
    var chunk := chunks[c];
    var own := Stubs(chunk.ops, |chunk.ops|);
    var any := seq(|own|, _ requires true => world[k]);
    var at := OwnGuardRefuses(chunk, facts, world, k, any);
    StubsAreList(chunk.ops, |chunk.ops|);
    PendingRefuses(chunks, c, own, Pending(chunks, c + 1), facts, any, at, first);
  }

  /** So a requirement unmet in any chunk is refused before anything mutates. */
  lemma {:induction false} UnmetAnywhereRefusesFirst(chunks: seq<Chunk>, c: nat, facts: Facts, world: seq<Moment>,
                                                     k: nat,
                                  first: seq<Moment>, r: Check)
    requires 0 < c < |chunks| && PlanChunk(chunks[c])
    requires |world| == |Lines(chunks, c)| && Checks(Lines(chunks, c), facts, world, CheckUnmet(k))
    requires |first| == |Lines(chunks, 0)| && Checks(Lines(chunks, 0), facts, first, r)
    ensures r != CheckOk
  {
    var ops := Lines(chunks, c);
    assert IsRequirement(ops[k]);
    assert OpenBefore(ops, k + 1) == OpenBefore(ops, k) + [k];
    assert k in OpenBefore(ops, k + 1);
    assert GuardsRequirement(ops, k);
    hide GuardRefuses, GuardsRequirement, HasRequire, OpenBefore, Lines, PlanChunk;
    FirstChunkRefuses(chunks, c, facts, world, k, first);
  }

  /** A stub's opener refuses only if the guard it copies does. */
  lemma {:induction false} StubCopies(ops: seq<Op>, facts: Facts, world: seq<Moment>, r: nat, i: nat,
                                      stubWorld: seq<Moment>)
    requires r < |ops| == |world| && IsRequirement(ops[r]) && HostChain(Chain(ops, r)) && i < |OpenBefore(ops, r + 1)|
    requires |stubWorld| == |Stub(Chain(ops, r))| && GuardRefuses(Stub(Chain(ops, r)), facts, stubWorld, i)
    ensures GuardRefuses(ops, facts, world, OpenBefore(ops, r + 1)[i])
  {
    var open, chain, stub := OpenBefore(ops, r + 1), Chain(ops, r), Stub(Chain(ops, r));
    ChainBegins(ops, r);
    StubOpen(chain, i);
    OpenAround(ops, r, i);
    hide OpenBefore, GuardAt;
    forall j | 0 <= j < i
      ensures GuardAt(ops, facts, world, open[j]) == Holds
    {
      assert HostOnly(chain[j]) && stub[j] == ops[open[j]];
      SameGuard(ops, world, open[j], stub, stubWorld, j, facts);
      assert OpenBefore(stub, i)[j] == j;
    }
    assert HostOnly(chain[i]) && stub[i] == ops[open[i]];
    SameGuard(ops, world, open[i], stub, stubWorld, i, facts);
  }

  /** The other direction of RefusesWithin, for any list behind front. */
  lemma {:induction false} RefusesAlone(front: seq<Op>, mid: seq<Op>, facts: Facts, world: seq<Moment>, k: nat)
    requires StubList(front) && |front| <= k < |world| == |front + mid| && GuardRefuses(front + mid, facts, world, k)
    ensures GuardRefuses(mid, facts, world[|front|..], k - |front|)
  {
    hide StubList, GuardRefuses, OpenBefore;
    var ops, a := front + mid, |front|;
    assert ops[..a] == front && ops[a..|ops|] == mid && world[a..|ops|] == world[a..];
    StubsFirstOpen(ops, a, a);
    ShiftLine(ops, facts, world, a, |ops|, k - a);
  }

  lemma {:induction false} RefusesInFront(front: seq<Op>, back: seq<Op>, facts: Facts, world: seq<Moment>, k: nat)
    requires StubList(front) && k < |front| && |world| == |front + back| && GuardRefuses(front + back, facts, world, k)
    ensures GuardRefuses(front, facts, world[..|front|], k)
  {
    assert (front + back)[..|front|] == front;
    hide StubList, GuardRefuses;
    StubLineRefuses(front + back, |front|, facts, world, k);
  }

  /** Where a refusal in the stubs of a chunk comes from. */
  lemma {:induction false} StubsOrigin(ops: seq<Op>, n: nat, facts: Facts, stubWorld: seq<Moment>, k: nat,
                                      world: seq<Moment>) returns (at: nat)
    requires n <= |ops| == |world| && |stubWorld| == |Stubs(ops, n)|
    requires k < |stubWorld| && GuardRefuses(Stubs(ops, n), facts, stubWorld, k)
    ensures at < |ops| && GuardRefuses(ops, facts, world, at) && GuardsRequirement(ops, at)
    decreases n
  {
    hide *;
    StubsParts(ops, n);
    var front, last := Stubs(ops, n - 1), StubAt(ops, n - 1);
    StubsAreList(ops, n - 1);
    if k < |front| {
      RefusesInFront(front, last, facts, stubWorld, k);
      at := StubsOrigin(ops, n - 1, facts, stubWorld[..|front|], k, world);
    } else {
      RefusesAlone(front, last, facts, stubWorld, k);
      at := StubOrigin(ops, n - 1, facts, stubWorld[|front|..], k - |front|, world);
    }
  }

  lemma {:induction false} StubsParts(ops: seq<Op>, n: nat)
    requires n <= |ops|
    ensures n == 0 ==> Stubs(ops, n) == []
    ensures n > 0 ==> Stubs(ops, n) == Stubs(ops, n - 1) + StubAt(ops, n - 1)
  {
  }

  lemma {:induction false} StubOrigin(ops: seq<Op>, r: nat, facts: Facts, stubWorld: seq<Moment>, i: nat,
                                     world: seq<Moment>) returns (at: nat)
    requires r < |ops| == |world| && |stubWorld| == |StubAt(ops, r)|
    requires i < |stubWorld| && GuardRefuses(StubAt(ops, r), facts, stubWorld, i)
    ensures at < |ops| && GuardRefuses(ops, facts, world, at) && GuardsRequirement(ops, at)
  {
    var chain := Chain(ops, r);
    ChainLength(ops, r);
    assert StubAt(ops, r) == Stub(chain);
    assert i < |chain|;
    StubCopies(ops, facts, world, r, i, stubWorld);
    at := OpenBefore(ops, r + 1)[i];
    hide GuardRefuses, Chain, HostChain;
    assert at in OpenBefore(ops, r + 1);
    AroundRequirement(ops, at, r);
  }

  lemma {:induction false} BehindHeader(ops: seq<Op>, facts: Facts, world: seq<Moment>, at: nat)
    requires |ops| > 0 && ops[0].kind.KindPlan? && |world| == |ops| && at < |ops|
    requires GuardRefuses(ops, facts, world, at) && GuardsRequirement(ops, at)
    ensures at > 0 && GuardRefuses(ops[1..], facts, world[1..], at - 1) && GuardsRequirement(ops[1..], at - 1)
  {
    var r := RequirementAround(ops, at);
    HeaderOpensNothing(ops);
    StretchAt(ops, world, 1);
    assert ops[at].kind.KindWhenBegin? && at > 0;
    hide GuardRefuses, OpenBefore, GuardsRequirement, Stretch;
    GuardInStretch(ops, facts, world, 1, at - 1, r - 1);
    assert 1 + (r - 1) + 1 == r + 1 && 1 + (at - 1) == at && 1 + (r - 1) == r && (r - 1) + 1 == r;
    AroundRequirement(ops[1..], at - 1, r - 1);
  }

  /** Own guard k of chunk c refuses and is, or is around, a requirement. */
  ghost predicate OwnRefuses(chunks: seq<Chunk>, facts: Facts, worlds: seq<seq<Moment>>, c: nat, k: nat) {
    && c < |chunks| == |worlds| && |worlds[c]| == |OwnPart(chunks[c])| && k < |worlds[c]|
    && GuardRefuses(OwnPart(chunks[c]), facts, worlds[c], k) && GuardsRequirement(OwnPart(chunks[c]), k)
  }

  lemma {:induction false} PendingOrigin(chunks: seq<Chunk>, from: nat, facts: Facts, stubWorld: seq<Moment>, k: nat,
                                        worlds: seq<seq<Moment>>) returns (c: nat, at: nat)
    requires from <= |chunks| == |worlds| && forall d :: 0 <= d < |chunks| ==> PlanChunk(chunks[d])
    requires forall d :: 0 <= d < |chunks| ==> |worlds[d]| == |OwnPart(chunks[d])|
    requires k < |stubWorld| == |Pending(chunks, from)| && GuardRefuses(Pending(chunks, from), facts, stubWorld, k)
    ensures c >= from && OwnRefuses(chunks, facts, worlds, c, at)
    decreases |chunks| - from
  {
    hide *;
    if from == |chunks| {
      PendingNone(chunks);
    }
    PendingNext(chunks, from);
    var ops := chunks[from].ops;
    var own, rest := Stubs(ops, |ops|), Pending(chunks, from + 1);
    assert PlanChunk(chunks[from]);
    StubsAreList(ops, |ops|);
    if k < |own| {
      RefusesInFront(own, rest, facts, stubWorld, k);
      at := OwnOrigin(chunks[from], facts, stubWorld[..|own|], k, worlds[from]);
      c := from;
      IsOwnRefuses(chunks, facts, worlds, c, at);
    } else {
      RefusesAlone(own, rest, facts, stubWorld, k);
      c, at := PendingOrigin(chunks, from + 1, facts, stubWorld[|own|..], k - |own|, worlds);
    }
  }

  lemma {:induction false} IsOwnRefuses(chunks: seq<Chunk>, facts: Facts, worlds: seq<seq<Moment>>, c: nat, k: nat)
    requires c < |chunks| == |worlds| && |worlds[c]| == |OwnPart(chunks[c])| && k < |worlds[c]|
    requires GuardRefuses(OwnPart(chunks[c]), facts, worlds[c], k) && GuardsRequirement(OwnPart(chunks[c]), k)
    ensures OwnRefuses(chunks, facts, worlds, c, k)
  {
  }

  lemma {:induction false} OwnOrigin(chunk: Chunk, facts: Facts, stubWorld: seq<Moment>, k: nat,
                                     world: seq<Moment>) returns (at: nat)
    requires PlanChunk(chunk) && |world| == |OwnPart(chunk)|
    requires k < |stubWorld| == |Stubs(chunk.ops, |chunk.ops|)|
    requires GuardRefuses(Stubs(chunk.ops, |chunk.ops|), facts, stubWorld, k)
    ensures at < |world| && GuardRefuses(OwnPart(chunk), facts, world, at) && GuardsRequirement(OwnPart(chunk), at)
  {
    hide *;
    PlanChunkSize(chunk);
    var all := [stubWorld[k]] + world;
    assert all[1..] == world;
    var j := StubsOrigin(chunk.ops, |chunk.ops|, facts, stubWorld, k, all);
    BehindHeader(chunk.ops, facts, all, j);
    at := j - 1;
  }

  /** The first chunk refuses for the sake of later ones exactly when a later
      chunk has a refusing guard that is, or is around, a requirement. */
  lemma {:induction false} FirstRefusesExactly(chunks: seq<Chunk>, facts: Facts, worlds: seq<seq<Moment>>,
                                               first: seq<Moment>)
    requires |chunks| == |worlds| > 0 && forall d :: 0 <= d < |chunks| ==> PlanChunk(chunks[d])
    requires forall d :: 0 <= d < |chunks| ==> |worlds[d]| == |OwnPart(chunks[d])|
    requires |first| == |Pending(chunks, 1)|
    ensures Refusing(Pending(chunks, 1), facts, first) <==>
              exists c, k :: c > 0 && OwnRefuses(chunks, facts, worlds, c, k)
  {
    hide GuardRefuses, GuardsRequirement, Pending, StubList, ScopesOk;
    if Refusing(Pending(chunks, 1), facts, first) {
      var k: nat :| k < |first| && GuardRefuses(Pending(chunks, 1), facts, first, k);
      var c, at := PendingOrigin(chunks, 1, facts, first, k, worlds);
    }
    if c, k :| c > 0 && OwnRefuses(chunks, facts, worlds, c, k) {
      LaterOwnRefuses(chunks, c, facts, worlds[c], k, first);
    }
  }

  lemma {:induction false} LaterOwnRefuses(chunks: seq<Chunk>, c: nat, facts: Facts, world: seq<Moment>, k: nat,
                                           first: seq<Moment>)
    requires 0 < c < |chunks| && PlanChunk(chunks[c]) && |first| == |Pending(chunks, 1)|
    requires k < |world| == |OwnPart(chunks[c])|
    requires GuardRefuses(OwnPart(chunks[c]), facts, world, k) && GuardsRequirement(OwnPart(chunks[c]), k)
    ensures Refusing(Pending(chunks, 1), facts, first)
  {
    hide *;
    var ops := chunks[c].ops;
    var own, rest := Stubs(ops, |ops|), Pending(chunks, c + 1);
    PendingNext(chunks, c);
    PlanChunkSize(chunks[c]);
    var any := seq(|own|, _ requires true => world[k]);
    var at := OwnGuardRefuses(chunks[c], facts, world, k, any);
    var front := PendingAfter(chunks, 1, c);
    StubsAreList(ops, |ops|);
    assert Pending(chunks, 1) == front + own + rest by {
      assert front + (own + rest) == front + own + rest;
    }
    RefusesWithin(front, own, rest, facts, any, first, at);
    RefusingAt(Pending(chunks, 1), facts, first, |front| + at);
  }
}
