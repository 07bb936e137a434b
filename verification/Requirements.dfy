/** Requirement blocks: the scope rule, the pre-check and the stubs of
    plan/require.go. */
module Requirements {
  import opened Ops
  import opened Blocks
  import opened Guards
  import opened Interpreter
  import opened Splits

  predicate IsRequirement(op: Op) {
    op.kind.KindWhenBegin? && op.require != ""
  }

  /** The when_begins open after op k, op k included if it is one. */
  function Chain(ops: seq<Op>, k: nat): (chain: seq<Op>)
    requires k < |ops|
  {
    var open := OpenBefore(ops, k + 1);
    seq(|open|, i requires 0 <= i < |open| => ops[open[i]])
  }

  predicate HostChain(chain: seq<Op>) {
    forall i :: 0 <= i < |chain| ==> HostOnly(chain[i])
  }

  /** The scope rule: a requirement and every block around it use host facts
      only. */
  predicate ScopesOk(ops: seq<Op>) {
    forall k :: 0 <= k < |ops| && IsRequirement(ops[k]) ==> HostChain(Chain(ops, k))
  }

  /** requirementScopeError: the first op of the chain that is not host-only. */
  method RequirementScopeError(chain: seq<Op>) returns (at: Option<nat>)
    ensures at.None? <==> HostChain(chain)
    ensures at.Some? ==> at.value < |chain| && !HostOnly(chain[at.value])
  {
    for i := 0 to |chain|
      invariant HostChain(chain[..i])
    {
      var bad := NonHostFactCondition(chain[i]);
      if bad.Some? {
        return Some(i);
      }
    }
    assert chain[..|chain|] == chain;
    at := None;
  }

  /** The open-block stack of the walks below, as ops. */
  ghost predicate OpenOps(ops: seq<Op>, k: nat, open: seq<Op>)
    requires k <= |ops|
  {
    |open| == |OpenBefore(ops, k)| && forall i :: 0 <= i < |open| ==> open[i] == ops[OpenBefore(ops, k)[i]]
  }

  function OpenNext(open: seq<Op>, op: Op): seq<Op> {
    match op.kind
    case KindWhenBegin => open + [op]
    case KindWhenEnd => if |open| > 0 then open[..|open| - 1] else open
    case _ => open
  }

  lemma {:induction false} OpenStep(ops: seq<Op>, k: nat, open: seq<Op>)
    requires k < |ops| && OpenOps(ops, k, open)
    ensures OpenOps(ops, k + 1, OpenNext(open, ops[k]))
    ensures OpenNext(open, ops[k]) == Chain(ops, k)
  {
    var was := OpenBefore(ops, k);
    assert OpenBefore(ops, k + 1) == match ops[k].kind
      case KindWhenBegin => was + [k]
      case KindWhenEnd => if was == [] then [] else was[..|was| - 1]
      case _ => was;
  }

  ghost predicate ScopesBefore(ops: seq<Op>, n: nat)
    requires n <= |ops|
  {
    forall k :: 0 <= k < n && IsRequirement(ops[k]) ==> HostChain(Chain(ops, k))
  }

  /** Op k is the first requirement that is out of scope. */
  ghost predicate FirstBadScope(ops: seq<Op>, k: nat) {
    k < |ops| && IsRequirement(ops[k]) && !HostChain(Chain(ops, k)) && ScopesBefore(ops, k)
  }

  /** One chunk of ValidateRequirementScopes: the first requirement out of
      scope. */
  method ChunkScopes(ops: seq<Op>) returns (bad: Option<nat>)
    ensures bad.None? <==> ScopesOk(ops)
    ensures bad.Some? ==> FirstBadScope(ops, bad.value)
  {
    hide Chain;
    var open: seq<Op> := [];
    for k := 0 to |ops|
      invariant OpenOps(ops, k, open) && ScopesBefore(ops, k)
    {
      OpenStep(ops, k, open);
      open := OpenNext(open, ops[k]);
      if IsRequirement(ops[k]) {
        var err := RequirementScopeError(open);
        if err.Some? {
          return Some(k);
        }
      }
    }
    bad := None;
  }

  /** ValidateRequirementScopes. */
  method ValidateRequirementScopes(chunks: seq<seq<Op>>) returns (bad: Option<(nat, nat)>)
    ensures bad.None? <==> forall c :: 0 <= c < |chunks| ==> ScopesOk(chunks[c])
    ensures bad.Some? ==> bad.value.0 < |chunks| && FirstBadScope(chunks[bad.value.0], bad.value.1) &&
                          forall c :: 0 <= c < bad.value.0 ==> ScopesOk(chunks[c])
  {
    for c := 0 to |chunks|
      invariant forall d :: 0 <= d < c ==> ScopesOk(chunks[d])
    {
      var at := ChunkScopes(chunks[c]);
      if at.Some? {
        return Some((c, at.value));
      }
    }
    bad := None;
  }

  datatype Check = CheckOk | BadScope(at: nat) | CheckError(at: nat) | CheckUnmet(at: nat)

  predicate HasRequire(ops: seq<Op>) {
    exists k :: 0 <= k < |ops| && ops[k].require != ""
  }

  ghost predicate NoRefusalBefore(ops: seq<Op>, facts: Facts, world: seq<Moment>, n: nat)
    requires n <= |ops| == |world|
  {
    forall k: nat :: k < n ==> !GuardRefuses(ops, facts, world, k)
  }

  /** What the pre-check finds before anything is applied. */
  ghost predicate Checks(ops: seq<Op>, facts: Facts, world: seq<Moment>, r: Check)
    requires |ops| == |world|
  {
    match r
    case CheckOk => !HasRequire(ops) || (ScopesOk(ops) && NoRefusalBefore(ops, facts, world, |ops|))
    case BadScope(at) => HasRequire(ops) && FirstBadScope(ops, at)
    case CheckError(at) =>
      HasRequire(ops) && ScopesOk(ops) && at < |ops| && NoRefusalBefore(ops, facts, world, at) &&
      GuardRefuses(ops, facts, world, at) && GuardAt(ops, facts, world, at) == EvalError
    case CheckUnmet(at) =>
      HasRequire(ops) && ScopesOk(ops) && at < |ops| && NoRefusalBefore(ops, facts, world, at) &&
      GuardRefuses(ops, facts, world, at) && GuardAt(ops, facts, world, at) == Fails
  }

  /** checkRequirements, run with the paths that exist at that time. */
  method CheckRequirements(ops: seq<Op>, facts: Facts, world: seq<Moment>) returns (r: Check)
    requires |ops| == |world|
    ensures Checks(ops, facts, world, r)
  {
    hide StackTells, Active, ScopesOk, GuardAt;
    var any := false;
    for k := 0 to |ops|
      invariant any <==> exists j :: 0 <= j < k && ops[j].require != ""
    {
      any := any || ops[k].require != "";
    }
    if !any {
      return CheckOk;
    }
    var bad := ChunkScopes(ops);
    if bad.Some? {
      return BadScope(bad.value);
    }
    var stack: seq<bool> := [];
    NothingOpen(ops, facts, world);
    for k := 0 to |ops|
      invariant StackTells(ops, facts, world, k, stack) && NoRefusalBefore(ops, facts, world, k)
    {
      StackActive(ops, facts, world, k, stack);
      match ops[k].kind {
        case KindWhenBegin =>
          StackPushed(ops, facts, world, k, stack);
          var active := WhenActive(stack);
          var ok := false;
          if active {
            var guard := EvalAll(ops[k].all, facts, world[k].path);
            GuardHere(ops, facts, world, k);
            if guard == EvalError {
              return CheckError(k);
            }
            ok := guard == Holds;
            if !ok && ops[k].require != "" {
              return CheckUnmet(k);
            }
          }
          stack := stack + [active && ok];
        case KindWhenEnd =>
          StackPopped(ops, facts, world, k, stack);
          stack := Popped(stack);
        case _ =>
          StackSame(ops, facts, world, k, stack);
      }
    }
    r := CheckOk;
  }

  lemma {:induction false} GuardHere(ops: seq<Op>, facts: Facts, world: seq<Moment>, k: nat)
    requires k < |ops| == |world|
    ensures GuardAt(ops, facts, world, k) == EvalAll(ops[k].all, facts, world[k].path)
  {
  }

  /** Host-only guards evaluate the same at any moment, wherever they sit. */
  lemma {:induction false} SameGuard(ops: seq<Op>, world: seq<Moment>, k: nat, more: seq<Op>, world': seq<Moment>,
                                     k': nat, facts: Facts)
    requires k < |ops| == |world| && k' < |more| == |world'| && ops[k].all == more[k'].all && HostOnly(ops[k])
    ensures GuardAt(ops, facts, world, k) == GuardAt(more, facts, world', k')
  {
    HostSame(ops[k].all, facts, world[k].path, world'[k'].path);
  }

  /** Op k opens and is the last of its own chain. */
  lemma {:induction false} ChainEnds(ops: seq<Op>, k: nat)
    requires k < |ops| && ops[k].kind.KindWhenBegin?
    ensures OpenBefore(ops, k + 1) == OpenBefore(ops, k) + [k]
    ensures |Chain(ops, k)| == |OpenBefore(ops, k)| + 1 && Chain(ops, k)[|OpenBefore(ops, k)|] == ops[k]
    ensures forall i :: 0 <= i < |OpenBefore(ops, k)| ==> Chain(ops, k)[i] == ops[OpenBefore(ops, k)[i]]
  {
    assert OpenBefore(ops, k + 1) == OpenBefore(ops, k) + [k];
  }

  /** The pre-check decides requirements: once it accepts, the interpreter
      never refuses one, however the existence of paths changes in between. */
  lemma {:induction false} PreCheckDecides(ops: seq<Op>, facts: Facts, before: seq<Moment>, during: seq<Moment>,
                                           applied: seq<nat>, end: End)
    requires |ops| == |before| == |during|
    requires Checks(ops, facts, before, CheckOk) && Applies(ops, facts, during, applied, end)
    ensures !end.Unmet?
  {
    if end.Unmet? {
      var k := end.at;
      assert IsRequirement(ops[k]) && HasRequire(ops) && HostChain(Chain(ops, k));
      ChainEnds(ops, k);
      var open := OpenBefore(ops, k);
      forall i | 0 <= i < |open|
        ensures GuardAt(ops, facts, before, open[i]) == Holds
      {
        assert HostOnly(Chain(ops, k)[i]);
        SameGuard(ops, before, open[i], ops, during, open[i], facts);
      }
      assert HostOnly(Chain(ops, k)[|open|]);
      SameGuard(ops, before, k, ops, during, k, facts);
      assert GuardRefuses(ops, facts, before, k);
    }
  }

  /** n when_ends. */
  function Ends(n: nat): (ends: seq<Op>)
    ensures |ends| == n && forall i :: 0 <= i < n ==> ends[i] == BareOp(KindWhenEnd)
  {
    seq(n, _ => BareOp(KindWhenEnd))
  }

  /** An empty copy of a chain of when_begins. */
  function Stub(chain: seq<Op>): seq<Op> {
    chain + Ends(|chain|)
  }

  function StubAt(ops: seq<Op>, k: nat): seq<Op>
    requires k < |ops|
  {
    if IsRequirement(ops[k]) && HostChain(Chain(ops, k)) then Stub(Chain(ops, k)) else []
  }

  /** The stubs of the requirements among the first n ops. */
  function Stubs(ops: seq<Op>, n: nat): seq<Op>
    requires n <= |ops|
  {
    if n == 0 then [] else Stubs(ops, n - 1) + StubAt(ops, n - 1)
  }

  /** requirementStubs. */
  method RequirementStubs(ops: seq<Op>) returns (stubs: seq<Op>)
    ensures stubs == Stubs(ops, |ops|)
  {
    hide Chain;
    stubs := [];
    var open: seq<Op> := [];
    for k := 0 to |ops|
      invariant OpenOps(ops, k, open) && stubs == Stubs(ops, k)
    {
      OpenStep(ops, k, open);
      open := OpenNext(open, ops[k]);
      if IsRequirement(ops[k]) {
        var err := RequirementScopeError(open);
        if err.None? {
          ghost var was := stubs;
          stubs := stubs + open;
          for j := 0 to |open|
            invariant stubs == was + (open + Ends(|open|)[..j])
          {
            stubs := stubs + [BareOp(KindWhenEnd)];
          }
          assert Ends(|open|)[..|open|] == Ends(|open|);
          assert stubs == was + Stub(open);
        }
      }
    }
  }

  /** The stubs of the chunks from k on, in chunk order. */
  function Pending(chunks: seq<Chunk>, k: nat): seq<Op>
    requires k <= |chunks|
    decreases |chunks| - k
  {
    if k == |chunks| then [] else Stubs(chunks[k].ops, |chunks[k].ops|) + Pending(chunks, k + 1)
  }

  /** pending inserted after a chunk's header. */
  function WithStubs(chunk: Chunk, pending: seq<Op>): Chunk
    requires |chunk.ops| > 0
  {
    Chunk(chunk.elevate, [chunk.ops[0]] + pending + chunk.ops[1..])
  }

  lemma {:induction false} WithNoStubs(chunk: Chunk)
    requires |chunk.ops| > 0
    ensures WithStubs(chunk, []) == chunk
  {
    assert [chunk.ops[0]] + [] + chunk.ops[1..] == chunk.ops;
  }

  /** The chunks from k on have their stubs, the others are as they were. */
  ghost predicate HoistedFrom(chunks: seq<Chunk>, out: seq<Chunk>, k: nat) {
    && |out| == |chunks|
    && (forall j :: 0 <= j < k && j < |chunks| ==> out[j] == chunks[j])
    && (forall j :: k <= j < |chunks| ==>
          |chunks[j].ops| > 0 && out[j] == WithStubs(chunks[j], Pending(chunks, j + 1)))
  }

  ghost predicate Hoisted(chunks: seq<Chunk>, out: seq<Chunk>) {
    HoistedFrom(chunks, out, 0)
  }

  lemma {:induction false} HoistNext(chunks: seq<Chunk>, out: seq<Chunk>, k: nat)
    requires HoistedFrom(chunks, out, k + 1) && k < |chunks| && |chunks[k].ops| > 0
    ensures out[k] == chunks[k]
    ensures HoistedFrom(chunks, out[k := WithStubs(chunks[k], Pending(chunks, k + 1))], k)
    ensures Pending(chunks, k + 1) == [] ==> HoistedFrom(chunks, out, k)
  {
    hide WithStubs, Pending;
    WithNoStubs(chunks[k]);
  }

  /** hoistRequirements: every chunk starts with the stubs of all later ones. */
  method HoistRequirements(chunks: seq<Chunk>) returns (out: seq<Chunk>)
    requires forall k :: 0 <= k < |chunks| ==> |chunks[k].ops| > 0
    ensures Hoisted(chunks, out)
  {
    hide Pending, WithStubs, HoistedFrom, Stubs;
    out := chunks;
    var pending: seq<Op> := [];
    PendingNone(chunks);
    for k := |chunks| downto 0
      invariant |out| == |chunks| && pending == Pending(chunks, k) && HoistedFrom(chunks, out, k)
    {
      HoistNext(chunks, out, k);
      var own := RequirementStubs(out[k].ops);
      PendingNext(chunks, k);
      if |pending| > 0 {
        out := out[k := WithStubs(out[k], pending)];
      }
      pending := own + pending;
    }
  }

  lemma {:induction false} PendingNone(chunks: seq<Chunk>)
    ensures Pending(chunks, |chunks|) == [] && HoistedFrom(chunks, chunks, |chunks|)
  {
  }

  lemma {:induction false} PendingNext(chunks: seq<Chunk>, k: nat)
    requires k < |chunks|
    ensures Pending(chunks, k) == Stubs(chunks[k].ops, |chunks[k].ops|) + Pending(chunks, k + 1)
  {
  }

  /** chunks are what the split makes of a plan: the body cut where the
      effective class changes, the header in front of each part and behind it
      the stubs of all later chunks. */
  ghost predicate IsSplit(ops: seq<Op>, chunks: seq<Chunk>, eff: seq<bool>, bounds: seq<nat>, cut: seq<Chunk>) {
    if ops == [] then chunks == []
    else if BodyOf(ops) == [] then chunks == [Chunk(false, [HeaderOf(ops)])]
    else
      && |eff| == |BodyOf(ops)| && (forall k: nat :: k < |eff| ==> (eff[k] <==> Promoted(BodyOf(ops), k)))
      && Cuts(eff, bounds, |eff|) && CutInto(BodyOf(ops), ChunkHeader(HeaderOf(ops)), eff, bounds, cut)
      && Hoisted(cut, chunks)
  }

  /** SplitPrivilegeChunks. */
  method SplitPrivilegeChunks(ops: seq<Op>) returns (chunks: seq<Chunk>, ghost eff: seq<bool>, ghost bounds: seq<nat>,
                                                    ghost cut: seq<Chunk>)
    ensures IsSplit(ops, chunks, eff, bounds, cut)
  {
    if |ops| == 0 {
      return [], [], [], [];
    }
    var header, body := HeaderOf(ops), BodyOf(ops);
    if |body| == 0 {
      return [Chunk(false, [header])], [], [], [];
    }
    var promoted := EffectiveElevate(body);
    eff := promoted;
    var parts;
    parts, bounds := CutChunks(body, header, promoted);
    cut := parts;
    chunks := HoistRequirements(parts);
  }
}
