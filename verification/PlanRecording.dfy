/** Recording a whole plan: recordPlanBody of api/plan.go, from the task list to
    the checked plan. */
module PlanRecording {
  import opened Ops
  import opened Blocks
  import opened Tasks
  import opened Records
  import opened RecordLaws
  import opened RecordLists
  import opened RecordedGuards
  import opened Recording
  import opened Splits
  import opened Requirements
  import opened PlanChecks
  import opened ChunkMeaning

  /** Why there is no plan: the list could not be recorded, or the pre-flight
      refused what was. */
  datatype PlanError = Unrecorded(error: Recording.Error) | Refused(verdict: Verdict)

  ghost predicate AllRecordable(reg: Registry, names: seq<string>) {
    forall k :: 0 <= k < |names| ==> Recordable(reg, names[k])
  }

  /** The header and what a list adds behind it. */
  function RecordedPlan(reg: Registry, planId: string, steps: seq<Step>): seq<Op> {
    [ControlOp(KindPlan, planId, [], false)] + StepsOps(reg, steps)
  }

  /** Every Run list in the plan lies behind the header and keeps the
      discipline of a list. */
  ghost predicate AllDisciplined(reg: Registry, plan: seq<Op>, lists: seq<Listing>) {
    forall i :: 0 <= i < |lists| ==> lists[i].at >= 1 && Disciplined(reg, plan, lists[i])
  }

  lemma {:induction false} RecordedBody(reg: Registry, planId: string, steps: seq<Step>)
    ensures RecordedPlan(reg, planId, steps) != [] && BodyOf(RecordedPlan(reg, planId, steps)) == StepsOps(reg, steps)
  {
    hide StepsOps;
    assert RecordedPlan(reg, planId, steps)[1..] == StepsOps(reg, steps);
  }

  /** What a list records, and how the plan splits. */
  lemma {:induction false} RecordedKeeps(reg: Registry, planId: string, names: seq<string>, steps: seq<Step>,
                                         chunks: seq<Chunk>, eff: seq<bool>, bounds: seq<nat>, cut: seq<Chunk>)
    requires LegalSteps(reg, ListEnv(), ByList, names, steps)
    requires IsSplit(RecordedPlan(reg, planId, steps), chunks, eff, bounds, cut)
    ensures AllDisciplined(reg, RecordedPlan(reg, planId, steps), AllLists(reg, names, steps, 1))
    ensures EmitsBalanced(reg) ==> Balanced(StepsOps(reg, steps))
    ensures EmitsBalanced(reg) && StepsOps(reg, steps) != [] ==>
              SplitOf(RecordedPlan(reg, planId, steps), chunks, eff, bounds, cut)
  {
    RecordedBody(reg, planId, steps);
    hide LegalSteps, IsSplit, Disciplined, AllLists, EmitsBalanced, Balanced, SplitOf, StepsOps;
    EveryListKeeps(reg, ControlOp(KindPlan, planId, [], false), names, steps);
    forall i | 0 <= i < |AllLists(reg, names, steps, 1)|
      ensures AllLists(reg, names, steps, 1)[i].at >= 1
    {
      ListsBehindHeader(reg, names, steps, i);
    }
    if EmitsBalanced(reg) && StepsOps(reg, steps) != [] {
      SplitReturns(RecordedPlan(reg, planId, steps), chunks, eff, bounds, cut);
    }
  }

  /** recordPlanBody: it succeeds exactly when every listed name is recordable
      and the chunks of what was recorded keep the rules of the pre-flight; the
      plan then is the header and what the list calls for.  Both are
      determined by the registry and the names. */
  method RecordPlanBody(reg: Registry, planId: string, names: seq<string>)
    returns (err: Option<PlanError>, plan: seq<Op>, ghost steps: seq<Step>, ghost chunks: seq<Chunk>,
             ghost eff: seq<bool>, ghost bounds: seq<nat>, ghost cut: seq<Chunk>)
    ensures err.Some? && err.value.Unrecorded? <==> !AllRecordable(reg, names)
    ensures err.Some? && err.value.Unrecorded? ==> Tells(reg, err.value.error)
    ensures AllRecordable(reg, names) ==>
              && LegalSteps(reg, ListEnv(), ByList, names, steps)
              && IsSplit(RecordedPlan(reg, planId, steps), chunks, eff, bounds, cut)
    ensures err.None? <==> AllRecordable(reg, names) && KeepsRules(OpsOf(chunks))
    ensures err.Some? && err.value.Refused? ==> VerdictTells(OpsOf(chunks), err.value.verdict)
    ensures plan == if err.None? then RecordedPlan(reg, planId, steps) else []
    ensures AllRecordable(reg, names) ==>
              AllDisciplined(reg, RecordedPlan(reg, planId, steps), AllLists(reg, names, steps, 1))
    ensures AllRecordable(reg, names) && EmitsBalanced(reg) ==> Balanced(StepsOps(reg, steps))
    ensures AllRecordable(reg, names) && EmitsBalanced(reg) && StepsOps(reg, steps) != [] ==>
              SplitOf(RecordedPlan(reg, planId, steps), chunks, eff, bounds, cut)
  {
    hide Tells, LegalSteps, StepsOps, EmitsBalanced, Balanced, Recordable, IsSplit, SplitOf, AllDisciplined, AllLists,
         VerdictTells, KeepsRules;
    var session := new Session(reg);
    var failed;
    failed, steps := session.RecordTaskBodies(names);
    if failed.Some? {
      return Some(Unrecorded(failed.value)), [], steps, [], [], [], [];
    }
    ListRecordable(reg, names, steps);
    plan := [ControlOp(KindPlan, planId, [], false)] + session.ops;
    assert plan == RecordedPlan(reg, planId, steps);
    var parts;
    parts, eff, bounds, cut := SplitPrivilegeChunks(plan);
    chunks := parts;
    RecordedKeeps(reg, planId, names, steps, chunks, eff, bounds, cut);
    var verdict := ValidateChunks(parts);
    if verdict != ChunksOk {
      return Some(Refused(verdict)), [], steps, chunks, eff, bounds, cut;
    }
    err := None;
  }

  lemma {:induction false} ListRecordable(reg: Registry, names: seq<string>, steps: seq<Step>)
    requires LegalSteps(reg, ListEnv(), ByList, names, steps)
    ensures AllRecordable(reg, names)
  {
    hide LegalSteps, Recordable;
    StepsRecordable(reg, ListEnv(), ByList, names, steps);
  }
}
