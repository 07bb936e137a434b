# Scheduling, splitting and recording of gonf plans

gonf records a recipe as a list of plan ops and applies it in privilege chunks,
each a process of its own. This project models the parts that decide what
those chunks are and in which order things happen, and proves what they
promise. It is written in Dafny 4.11; `dafny verify dfyconfig.toml` checks it.

The model follows the program's own structure and form. What the program
updates in place is a class with those fields or a loop over the same
variables; fixed-size buffers and adjacency lists are sequences that are
reassigned. Every such method is tied to a specification that does not mention
how it works: reachability in a finite graph (`Walks`), level assignments
(`Levels`), chunk orders (`ChunkOrders`), the open when-blocks at a line
(`Blocks`), what the interpreter does (`Interpreter.Applies`), the record a task
list calls for (`Records.LegalSteps`) and the lines it adds to the plan
(`Records.StepsOps`). What those specifications mean is stated once more in the
fields of ops, tasks and hosts alone, without them: `Enclosing` counts
when_begins and when_ends, `GuardMeaning` says what guards, applies and checks
mean for the host, `RuleMeaning` the rules of the pre-flight, `HoistMeaning` what
a stub copies, `DirMeaning` the directory rule, and `RecordedGuards` what the
lines of a recorded plan carry.

**The privilege scheduler.** `LevelGraph`, `Components`, `ApplyLevels`,
`CrossSearch`, `Conflicts` and `KeptWatches` model the level graph with its
toggled watch edges, Tarjan's arrays and stack, the longest-path pass, the two
stamp-marked state searches, the greedy choice of watches and the minimal
conflicts. `DepGraph`, `ReadyHeap`, `Kahn`, `PathDeps`, `ChunkOrders` and
`ApplyOrder` model the dependency graph, the heap, the topological passes, the
directory inference and the choice between the two starting classes.
`Scheduling` and `ApplyPlan` join them to the split and the chunk checks.

**The plan engine.** `Splits`, `Requirements`, `ChunkChecks` and `PlanChecks`
model the cut into chunks, the requirement stubs and the whole-plan checks;
`Guards` and `Interpreter` the guards and the when-stack; `ApplySort` the stable
sort of each run. `SplitMeaning`, `AllOrNothing`, `SortMeaning`, `EndToEnd`, `PlanApply` and
`ChunkMeaning` hold the theorems across them, the last for the chunks that
`SplitPrivilegeChunks` returns (`ChunkMeaning.SplitReturns`), and `Preflight` the
watch refusal Apply words itself.

**The recorder.** `Tasks` models the registry and its checks. `Records` says what
a task list calls for: a tree of records, each with its needs and its body, and
the dedupe sets that decide what is skipped. `Recording` models the session with
its stack, Needs scopes, aggregate trees and stashed errors, and ties every step
of it to that record and to the ops it adds. `RecordLaws` and `RecordSpans` prove
what follows for every record; a span is a body's range of lines in the plan.
`RecordOnce` says when a name is skipped.
`RecordLists` carries that over to every nested Run list, and `PlanRecording`
joins the recording, the split and the pre-flight. `Amend` and `Recorded` are the two kinds of amendment.

What a process does to the host enters as parameters: a `Moment` per line says
whether the apply was cancelled before it, which paths exist then and whether
the op's handler succeeds, so a theorem over all moments is one over every run.
`Facts` carries the host facts and, as a function, the lower-casing of strings.

Side conditions are stated where they are needed and nowhere else:
`ApplyPlan.RegisteredPlan` asks for a flat body with unique IDs and a header
nobody names, because the chunk checks index control ops too
(plan/split.go:153-166); `SplitMeaning.CutBody` asks for balanced when-blocks,
which every recorded plan has whose emitted ops are balanced
(`PlanRecording.RecordPlanBody`). `EndToEnd.DependencyFirst` needs
neither, because a header or a when_begin that carries an ID counts as carrying
it. Two comments of the source promise more than the code does. "Checking at
every registration catches every cycle" (api/task_needs.go:163-166) does not
hold for a cycle an alias closes: `Tasks.AliasClosesCycle` gives one, and
`Tasks.RegisterKeepsAcyclic` says exactly when registration keeps the graph
acyclic; such a cycle is found while recording. And api/preflight.go:77-85 says
that the reworded watch refusal is exactly the one the plan check would report.
`Preflight.HeaderWatchDiffers` gives a plan where it is not, because the
rewording passes over control ops, and `Preflight.SameWatchRefused` says exactly
when it is: the two also part where a negated guard or an enable-only service
is refused first, because the rewording does not run those checks.

## Model

| member | source | states |
|---|---|---|
| `Levels.Solvability` | api/apply_levels.go:166-182 | chunk levels meeting every dependency, watch and class rule exist exactly when no strongly connected component holds a cross-class edge, and the answer is the same for both starting classes |
| `Levels.ClosesExactly` | api/apply_conflicts.go:76-98 | on a satisfiable graph, adding one same-class watch breaks it exactly when a walk with a cross-class edge already joins the watch's ends, one way or the other |
| `Levels.NoCrossWithEdge` | api/apply_order.go:131-142 | an edge whose target does not reach its source keeps the watches satisfiable |
| `LevelGraphs.LevelGraph.AddWatch` | api/apply_levels.go:72-76 | adds both edges of a watch, counted with multiplicity, and nothing else |
| `LevelGraphs.LevelGraph.RemoveWatch` | api/apply_levels.go:78-86 | takes exactly one copy of both edges of a held watch out again, so a toggled watch leaves the graph as it was |
| `Components.Tarjan.Visit` | api/apply_levels.go:201-226 | a visit of an unvisited op keeps the invariant of index, low, stack and comp, leaves everything visited before alone, and leaves the op on the stack exactly when its low is below its index |
| `Components.Tarjan.FollowEdge` | api/apply_levels.go:228-235 | following one edge, tree, back or finished, keeps the invariant and covers the edge in low |
| `Components.Tarjan.PopComponent` | api/apply_levels.go:212-226 | pops the stack down to the root and numbers exactly the popped ops |
| `Components.AllDone` | api/apply_levels.go:184-199 | once every op is visited, two ops have one component number exactly when each reaches the other, no edge leads to a higher number, and the numbers are gap-free |
| `ApplyLevels.StrongComponents` | api/apply_levels.go:187-199 | returns such component numbers for every level graph |
| `ApplyLevels.WatchesSatisfiable` | api/apply_levels.go:171-182 | answers ok exactly when no component holds a cross-class edge, and otherwise names a component that does |
| `ApplyLevels.ChunkLevels` | api/apply_levels.go:136-164 | returns the pointwise-least assignment that never puts an op below a dependency, puts it strictly above one of the other class, has the class parity and gives both ends of every kept watch one level |
| `CrossSearch.ForwardDecides` | api/apply_conflicts.go:111-173 | a finished forward search over (op, crossed) states, with its dominance rule, holds the target state exactly when a walk with a cross-class edge exists |
| `CrossSearch.BackwardDecides` | api/apply_conflicts.go:120-191 | a finished backward search, without that rule, decides the same on its own |
| `CrossSearch.StateSearch.Step` | api/apply_conflicts.go:133-145 | one step keeps the search sound, and done means that search alone has decided the question |
| `CrossSearch.HasCrossWalk` | api/apply_conflicts.go:87-98 | stepping both searches alternately and stopping at whichever ends first is exact |
| `CrossSearch.ClosesCrossCycle` | api/apply_conflicts.go:76-80 | true exactly when a cross-class walk joins the watch's ends in one of the two directions |
| `Conflicts.Witness` | api/apply_conflicts.go:210-237 | the kept watches read off the parent pointers of the search exclude the dropped watch together with the dependencies |
| `Conflicts.SeriesUseless` | api/apply_conflicts.go:278-300 | once one watch of a run in series is gone the rest of the run cannot exclude anything, so testing whole runs decides single watches |
| `Conflicts.SeriesUnits` | api/apply_conflicts.go:265-300 | cuts the watches into runs in series, every watch in exactly one |
| `Conflicts.ShrinkConflict` | api/apply_conflicts.go:239-263 | leaves a subset that still excludes the watch and of which every single watch is needed, toggling watch edges per trial and restoring them |
| `KeptWatches.WatchListMember` | api/apply_levels.go:241-255 | a pair is listed exactly when its first op is change-gated and watches the other, of the same class and not itself |
| `KeptWatches.SameClassWatches` | api/apply_levels.go:241-255 | lists those pairs in declaration order |
| `KeptWatches.WatchListDeclared` | api/apply_levels.go:236-255 | the listed watches are ordered by gated op and then by place in its list, one entry for each occurrence, none missing |
| `KeptWatches.FitTogetherIff` | api/apply_levels.go:166-182 | watches fit next to the dependencies exactly when the components say so, whichever class is first |
| `KeptWatches.GreedyMaximal` | api/apply_levels.go:91-129 | a dropped watch does not fit next to the final kept set, not only next to the watches kept before it |
| `KeptWatches.GreedyKeepsAll` | api/apply_levels.go:112-120 | watches that fit together are all kept |
| `KeptWatches.GreedyKeeps` | api/apply_levels.go:97-124 | place by place, a watch is kept exactly if it fits next to the kept watches declared before it |
| `KeptWatches.FirstFittingKept` | api/apply_levels.go:97-124 | so the first declared watch that fits on its own is kept |
| `KeptWatches.ConflictsOf` | api/apply_conflicts.go:51-69 | explains each dropped watch that is not excluded by the dependencies alone by a minimal set of kept watches, and no other |
| `KeptWatches.ChooseWatches` | api/apply_levels.go:112-129 | keeps exactly the greedy set, which fits together; a dropped watch has an entry exactly when it fits alone, and then a minimal conflict |
| `DepGraphs.NewDepGraph` | api/apply_order.go:30-50 | indexes each non-empty ID by its first op and lists every named dependency as often at the dependent as at the dependency; names of no op add nothing |
| `ReadyHeaps.ReadyHeap.Push` | api/apply_order.go:238-250 | adds one op and keeps the heap order by rank, ties by index |
| `ReadyHeaps.ReadyHeap.Pop` | api/apply_order.go:238-250 | removes an op that no remaining op comes before |
| `Kahn.KahnPass` | api/apply_order.go:216-236 | every entry is, of the ops then ready, the one of lowest (rank, index), until none is ready; the final counts are the dependencies never emitted |
| `Kahn.KahnEmits` | api/apply_order.go:185-195 | a pass emits exactly the ops that no dependency cycle reaches |
| `Kahn.KahnComplete` | api/apply_order.go:191-209 | it emits every op, each once, exactly when the graph is acyclic |
| `Kahn.KahnRankRises` | api/apply_order.go:197-209 | with ranks that never drop along an edge the ops come out rank by rank |
| `ApplyOrder.CycleBlocked` | api/apply_order.go:191-194 | reports acyclicity exactly, and a positive count exactly for the ops a cycle keeps from getting ready |
| `ApplyOrder.CycleError` | api/apply_order.go:273-290 | with a blocked op it never reaches its fallback message: it names a closed chain of distinct ops, each depending on the next |
| `ApplyOrder.LoopIsCycle` | api/apply_order.go:266-290 | such a chain refutes acyclicity |
| `ApplyOrder.FirstReady` | api/apply_order.go:177-184 | the lowest-indexed op without dependencies, or -1 if there is none |
| `ApplyOrder.GraphDeps` | api/apply_order.go:30-50 | the graph holds exactly the recorded dependencies, self-dependencies included |
| `ApplyOrder.WithParentDirDeps` | api/apply_order.go:143-155 | appends exactly the inferred edges to both lists |
| `ApplyOrder.InferenceKeeps` | api/apply_order.go:131-142 | with the inferred edges the graph is as acyclic and the kept watches as satisfiable as without |
| `ChunkOrders.OrderLevels` | api/apply_order.go:62-76 | the chunk indexes of any valid order are valid levels |
| `ChunkOrders.LeastIsFewest` | api/apply_order.go:72-77 | no valid order starting with the same class has fewer chunks than one sorted by the least levels |
| `ChunkOrders.BetterIsFewest` | api/apply_order.go:118-123 | the better of the two least orders has the fewest chunks of all valid orders |
| `ApplyOrder.ChooseOrder` | api/apply_order.go:118-123 | takes the order of the class of the first op without dependencies unless the other class saves a chunk |
| `ApplyOrder.OrderForPrivilegeSplit` | api/apply_order.go:105-129 | refuses exactly the circular plans, naming a real cycle; otherwise returns the header and a permutation of the body with the fewest chunks of all orders that put each recorded or inferred dependency first and keep both ends of every kept watch in one chunk |
| `Scheduling.ScheduleIsGoodIfAnyIs` | api/apply_order.go:79-88 | the chosen order lets every watch share a chunk with its gated op exactly when some dependency-respecting order does |
| `Scheduling.DroppedCrosses` | api/apply_order.go:79-88 | a dropped watch crosses chunks in every order that keeps the others |
| `ApplyPlan.PartIsChunk` | api/apply_order.go:253-264 | the parts cut by the split are the chunks the order was counted in |
| `ApplyPlan.GatesLocalIff` | plan/split.go:182-210 | the change-gate check accepts an ordered flat plan exactly when every gate watches something, nothing watched is missing and every watch shares a chunk with its gated op |
| `ApplyPlan.DepsPlacedIff` | plan/split.go:104-122 | the dependency check accepts such a plan exactly when no dependency is missing |
| `ApplyPlan.PrepareElevated` | api/resource.go:285-293 | order, split and the whole pre-flight together: prepared exactly when no op breaks a rule by itself, the deps are acyclic, nothing is missing and some order brings every watch into its gate's chunk; a cycle is named, and a dependency refusal is never a forward one; the chunks are the body in the order the scheduler chose, cut by class, and no order its rules allow has fewer |
| `PathDeps.DirProviders` | plan/pathdeps.go:84-97 | lists at each path exactly the present directory ops that create it |
| `PathDeps.NearestAncestor` | plan/pathdeps.go:152-167 | walks up to the nearest strict ancestor some op creates, or none |
| `PathDeps.NearestProviders` | plan/pathdeps.go:137-150 | exactly the other ops at the nearest provided ancestor of a created path, without repeats |
| `PathDeps.Reacher.Reaches` | plan/pathdeps.go:181-204 | reachability over the given and the accepted edges together, exactly |
| `PathDeps.InferParentDirDeps` | plan/pathdeps.go:63-80 | accepts candidates in consumer order, each closing no cycle when accepted; whatever it drops would close one with the given edges and those of the consumers before |
| `PathDeps.InferredExactly` | plan/pathdeps.go:40-44 | so an edge is there exactly if it is a candidate and closes no cycle with the given edges and those of the consumers before its own |
| `DirMeaning.ParentIff` | plan/pathdeps.go:26-39 | the candidates in the ops' own fields: a present file, ensure_file, dir, sync_dir, ensure_dir, link or link_if_exists at its path, or a present config_set at a member's, and each other present dir, sync_dir or ensure_dir at the nearest directory above that any creates |
| `DirMeaning.InferredMeans` | plan/pathdeps.go:26-44 | exactly these pairs get an edge, but for those that close a cycle |
| `DirMeaning.AbsentAndLinks` | plan/pathdeps.go:29-36 | absent ops neither wait nor provide, and links never provide |
| `DirMeaning.DirectoryFirst` | plan/pathdeps.go:10-14 | in the order Apply chooses, an op comes after the directories it is put into, unless that closes a cycle |
| `DirMeaning.DirectoryFirstInRun` | plan/pathdeps.go:10-14 | and so it does in every sorted run of a chunk |
| `PathDeps.AcceptedHarmless` | plan/pathdeps.go:55-62 | accepted edges merge no two strongly connected components |
| `PathDeps.AcceptedAcyclic` | plan/pathdeps.go:40-44 | a graph is acyclic with the accepted edges exactly when it is without |
| `PathDeps.DroppedCloses` | plan/pathdeps.go:40-44 | a dropped candidate would close a cycle with the given and the accepted edges |
| `Splits.EffectiveElevate` | plan/split.go:258-291 | an op is promoted exactly when it, or a matched when-block around it, holds an elevated op |
| `Splits.BlockUniform` | plan/split.go:263-288 | all ops of a matched block get one effective class |
| `Enclosing.MatchedIff` | plan/split.go:263-288 | a when_end closes a when_begin exactly when as many blocks begin as end between them and none of them ends outside |
| `ChunkMeaning.PromotedMeans` | plan/split.go:258-291 | an op runs elevated exactly if it asks for it or lies in a closed block some op of which does, counted by when_begins and when_ends |
| `Splits.CutChunks` | plan/split.go:234-254 | cuts the body into its maximal runs of one effective class, the header in front of each, so neighbouring chunks alternate and the parts make up the body |
| `Splits.BlocksUncut` | plan/split.go:212-214 | no cut falls inside a matched block |
| `Splits.CutsOutside` | plan/split.go:212-214 | in a balanced body no block is open at a cut |
| `Requirements.SplitPrivilegeChunks` | plan/split.go:220-256 | the cut chunks with the stubs of all later chunks behind each header |
| `SplitMeaning.SplitPreservesMeaning` | plan/split.go:220-291 | with the same guard, handler and cancellation outcomes line by line, the parts applied in order run the same ops in the same order as the unsplit body and end at the same op for the same reason |
| `SplitMeaning.StubsInert` | plan/require.go:134-142 | once a chunk's check accepted, its stubs change neither the ops it runs nor how it ends, whatever paths exist meanwhile; if the apply is cancelled on a stub line it ends there with nothing applied |
| `ChunkMeaning.ChunksRunSame` | plan/split.go:220-256 | the chunks the split returns, each with its header and stubs and accepted by its check, applied in order run the ops the unsplit body runs, in that order, and end where and why it ends |
| `ChunkMeaning.SplitSortedRunsSame` | plan/apply.go:137-162 | if every returned chunk, sorted, applies to its end, an op of the body is run by some line of some chunk exactly when the unsplit, unsorted body runs it |
| `ChunkMeaning.LineRan` | plan/apply.go:137-162 | whatever a sorted chunk ran before it ended for any reason, with the later chunks run or not, is an op of its part that the unsplit, unsorted body does not skip |
| `ChunkMeaning.OneSplit` | plan/split.go:220-256 | a plan is split in one way only |
| `ChunkMeaning.ChunkLines` | plan/split.go:220-256 | the lines of a returned chunk are the plan's own header (given an ID if it has none, a bare one if there is none), the stubs of the later chunks and a stretch of the plan's lines |
| `ChunkMeaning.OpRunsOnce` | plan/apply.go:137-162 | and by one line of one chunk only |
| `ChunkMeaning.WholePlanPermuted` | plan/split.go:220-256 | over all chunks the apply orders are a permutation of the whole body and the stubs |
| `ChunkChecks.ValidateChunkDeps` | plan/split.go:104-122 | accepts exactly when each dependency is carried by its own chunk or an earlier one, and otherwise names the first that is not, dangling or forward |
| `ChunkChecks.ValidateChangeGates` | plan/split.go:182-210 | accepts exactly when each gate watches something and each watch is first carried by the gate's chunk, and otherwise names the first violation and its kind |
| `PlanChecks.ValidateNegations` | plan/negated_os.go:11-43 | accepts exactly when every negated predicate stands in a when_begin and tests the operating system against managed ones, and otherwise names the first that does not |
| `PlanChecks.ValidateServices` | plan/service_enable_only.go:8-17 | accepts exactly when no enable-only service asks for a restart, a reload or a gate, and otherwise names the first that does |
| `PlanChecks.ValidateChunks` | plan/split.go:133-151 | accepts exactly the chunks that keep all five rules, and otherwise reports the first violation of the first rule broken |
| `RuleMeaning.RulesMean` | plan/split.go:133-151 | the five rules in the ops' own fields: negations in when_begins of supported systems, no enable-only service with a runtime change, every dependency carried by its chunk or an earlier one, every gate watching something its own chunk is the first to carry, requirements in scope |
| `Preflight.CrossChunkWatchRefusal` | api/preflight.go:86-124 | nothing if the dependency check refuses; otherwise the watch across chunks at which a scan of the gates first stops that looks watches up among resource ops, and nothing if it stops for another reason or not at all |
| `Preflight.SameWatchRefused` | api/preflight.go:77-85 | the reworded refusal is exactly the watch across chunks the whole pre-flight reports, or neither is one, if and only if the dependency check refuses; or the rules for single ops accept and, at the first watch where either scan stops, nothing carries it, or both lookups find it in other chunks, or only a control op of its own chunk carries it and the gate rule stops at no watch across chunks; or those rules refuse and nothing is reworded |
| `Preflight.ResourcesAgree` | api/preflight.go:77-85 | where no watch names a control op the two always agree |
| `Preflight.HeaderWatchDiffers` | api/preflight.go:86-96 | for any header ID, a plan whose split makes the two differ: the pre-flight refuses a watch on the header as crossing chunks, the rewording answers nothing |
| `Guards.HostSame` | plan/require.go:12-22 | host-fact guards evaluate alike whatever paths exist |
| `Guards.NonHostFactCondition` | plan/require.go:28-38 | the first predicate that is not a host fact, if there is one |
| `Guards.AllHold` | plan/apply.go:483-494 | a guard holds exactly when each of its predicates does |
| `GuardMeaning.GoosMeaning` | plan/apply.go:520-549 | a plain goos predicate holds exactly when the host's operating system is one of a non-empty list or, with an empty one, the value given; it never errs and no other fact matters |
| `GuardMeaning.ProfileMeaning` | plan/apply.go:520-549 | the same for the profile |
| `GuardMeaning.HostnameMeaning` | plan/apply.go:551-565 | hostname_contains holds exactly when a value, lower-cased, lies somewhere in the lower-cased hostname |
| `GuardMeaning.NegationMeaning` | plan/apply.go:497-505 | a well-formed negation on a supported host is the exact opposite of the plain predicate; any other negation errs |
| `GuardMeaning.PredicateMeaning` | plan/apply.go:496-533 | when a predicate holds and when it errs, in the host's facts and paths; an unknown fact or an empty predicate errs |
| `GuardMeaning.GuardMeans` | plan/apply.go:483-494 | a guard holds when all its predicates are met and errs when the first one not met errs |
| `GuardMeaning.ManagedIff` | internal/platform/platform.go:17-29 | the supported operating systems are linux, darwin, freebsd, openbsd and netbsd |
| `GuardMeaning.ScopesMean` | plan/require.go:12-65 | requirements are in scope exactly when they and the blocks around them ask for goos, profile or hostname_contains and for no path |
| `GuardMeaning.CheckMeans` | plan/require.go:92-127 | the check accepts exactly when there is no requirement, or all are in scope and every when_begin reached with its blocks met neither errs nor is an unmet requirement; what it names is the first that is wrong |
| `Requirements.ValidateRequirementScopes` | plan/require.go:45-65 | accepts exactly when every requirement and every block around it uses host facts only |
| `Requirements.CheckRequirements` | plan/require.go:92-127 | accepts exactly when there is no requirement, or all are in scope and no reached guard errs or is an unmet requirement; otherwise names the first that does |
| `Requirements.PreCheckDecides` | plan/require.go:86-127 | after the check accepted, the interpreter never ends at an unmet requirement, however path existence changes between the check and each line |
| `Requirements.RequirementStubs` | plan/require.go:166-185 | an empty copy of the open chain of every requirement in scope, in order |
| `Requirements.HoistRequirements` | plan/require.go:143-156 | each chunk gets the stubs of all later chunks, in chunk order, and keeps its own ops |
| `HoistMeaning.StubMeans` | plan/require.go:166-185 | each requirement in scope, and nothing else, has a stub: the blocks around it, outermost first, the requirement itself and a bare when_end for each |
| `HoistMeaning.StubsInOrder` | plan/require.go:166-185 | within a chunk the stubs stand in the order of their requirements |
| `HoistMeaning.PendingInOrder` | plan/require.go:143-156 | what a chunk gets holds the stubs of each later chunk in chunk order |
| `AllOrNothing.FirstChunkRefuses` | plan/require.go:135-156 | a refusing guard of a later chunk that is a requirement, a block around one or a stub makes the first chunk refuse too |
| `AllOrNothing.FirstRefusesExactly` | plan/require.go:135-156 | the stubs of the first chunk refuse exactly when some later chunk has a refusing guard that is, or is around, a requirement |
| `AllOrNothing.UnmetAnywhereRefusesFirst` | plan/require.go:92-156 | if any later chunk's check finds an unmet requirement, the first chunk's check does not accept |
| `Interpreter.ApplyLine` | plan/apply.go:357-394 | one line: the new when-stack, whether the op ran, and whether and how the apply ends |
| `Interpreter.ApplyBody` | plan/apply.go:148-162 | applies exactly the resource ops whose open blocks all held, up to the first line that ends the apply, and tells which and why |
| `Interpreter.OneOutcome` | plan/apply.go:148-162 | for given guard, handler and cancellation outcomes an apply does one thing only |
| `Enclosing.OpenIff` | plan/apply.go:357-394 | the when-stack holds exactly the blocks around a line, counted by when_begins and when_ends |
| `GuardMeaning.ActiveMeans` | plan/apply.go:396-401 | a line is active exactly when every block around it has a guard that is met |
| `GuardMeaning.ApplyMeans` | plan/apply.go:148-162 | an apply passes every line that can be passed and ends at the first that cannot, for that line's own reason: a cancellation, a guard that errs, an unmet requirement, a when_end without a block, a header, a handler that fails; and a resource op is applied exactly if it was passed and all guards around it were met, in line order |
| `GuardMeaning.AppliedOnFacts` | plan/apply.go:357-394 | an op is applied only where each plain fact of each guard around it matches the host |
| `ApplySort.KahnStable` | plan/apply.go:325-355 | always the earliest recorded ready op; it fails exactly on a cycle, naming an op a cycle blocks |
| `ApplySort.StableUnchanged` | plan/apply.go:321-324 | a run already in order is left as it is |
| `ApplySort.SortRunByDeps` | plan/apply.go:261-319 | a run sorts exactly when no dependency is first carried behind it and its recorded dependencies are acyclic, so inference never decides it; then recorded and inferred dependencies come first |
| `ApplySort.SortedApplyOrder` | plan/apply.go:195-246 | succeeds exactly when every run sorts; control ops keep their positions and each run is sorted in place |
| `EndToEnd.SortedPermutation` | plan/apply.go:195-246 | the apply order is a permutation of the body |
| `EndToEnd.ChunkReordered` | plan/apply.go:180-187 | a chunk applies exactly its ops, control ops where they were recorded |
| `EndToEnd.DependencyFirst` | plan/split.go:82-122 | if the chunk check accepts and every chunk sorts, each resource op follows, in its chunk or an earlier one, an op carrying each ID it depends on |
| `EndToEnd.EveryCarrierFirst` | plan/apply.go:261-311 | between two control ops a sorted op follows every op there that carries an ID it depends on |
| `EndToEnd.SortAcceptsMeans` | plan/apply.go:195-246 | a body sorts exactly when no resource op has a dependency first carried behind a control op after it and no stretch between control ops holds a cycle of recorded dependencies; one carried earlier or nowhere is no reason |
| `SortMeaning.SortKeepsRefusals` | plan/apply.go:124-135 | a guard refuses in the sorted body exactly when it does in the recorded one |
| `SortMeaning.SortRunsSameOps` | plan/apply.go:180-187 | an op is skipped where the sort puts it exactly when it is skipped where it was recorded |
| `PlanApply.ApplyChunk` | plan/apply.go:83-139 | no op applies unless the ops keep the rules for single ops, the host is a managed one where a guard negates it, the gates are local, the runs sort and the requirements hold; after that no requirement refuses |
| `PlanApply.RefusedTogether` | plan/require.go:135-156 | if Apply would refuse a later chunk for an unmet requirement it refuses the first chunk too, each chunk sorted and checked as Apply does it |
| `Tasks.ResolveNeed` | api/task_needs.go:100-112 | a need names the prefixed task if that exists, else the plain one, else nothing |
| `Tasks.NeedsResolve` | api/task_needs.go:121-141 | needs that all name something resolve in order, one by one, the prefixed task before the plain one |
| `Tasks.NeedGraphMeans` | api/task_needs.go:127-141 | the Needs graph in the tasks' own fields |
| `Tasks.NeedsCycle` | api/task_needs.go:167-193 | finds a chain of Needs and alias edges from the task back to itself exactly when there is one |
| `Tasks.CheckNeeds` | api/task_needs.go:144-161 | accepts exactly when no need is empty and the new task lies on no cycle |
| `Tasks.RegisterKeepsAcyclic` | api/task_needs.go:163-166 | registering a task or alias keeps the Needs graph acyclic exactly when the new name lies on no cycle, although it can change what other needs resolve to |
| `Tasks.AliasClosesCycle` | api/task_alias.go:36-58 | the alias check accepts an alias that closes a Needs cycle |
| `Tasks.ContainsOperational` | api/aggregate.go:180-203 | a walk sharing its visited marks finds operational work only if there is some, and what it has visited without finding any is harmless |
| `Tasks.IsOperational` | api/aggregate.go:172-203 | true exactly when the task is, or leads through aliases, needs and members to, an operational task |
| `Tasks.ContentGraphMeans` | api/aggregate.go:172-203 | what counts as contained, in the tasks' own fields: an alias's target, a task's needs, and the members of an aggregate that is no pattern |
| `Recording.PatternMembers` | api/aggregate.go:134-159 | exactly the active matched tasks that are neither the aggregate, nor an alias of it, nor operational work |
| `Recording.ActiveMembers` | api/aggregate.go:205-224 | exactly the active members; an unknown member or a broken alias is an error |
| `Records.ActiveInOrder` | api/aggregate.go:205-224 | the active members are exactly the listed ones that are registered and active, in list order |
| `Records.QualifiedInOrder` | api/aggregate.go:134-159 | a pattern's members are exactly the matched ones that qualify, in matched order |
| `Records.NeedNamesMean` | api/task_needs.go:215-238 | what a task's needs record is, for each need in order, the prefixed task if there is one and the plain one else |
| `Recording.Session.RecordTaskBodies` | api/plan.go:571-583 | appends exactly the ops of the one record its list calls for, with dedupe sets of its own, or a true error; it terminates for every registry and succeeds whenever every name is recordable |
| `Recording.Session.RecordTaskName` | api/plan.go:589-617 | a name on the stack is a recursion; otherwise the resolved task's needs and body are appended and the dedupe sets are the ones after them |
| `Recording.Session.RecordNeeds` | api/task_needs.go:215-238 | appends, in declaration order, the records of the needs the list or tree lacks, and of no other |
| `Recording.Session.RecordSingleTaskBody` | api/plan.go:650-686 | appends the body between its when_begin and when_end if it has a guard, and restores the privilege |
| `Recording.Session.RunActions` | api/plan.go:693-706 | a plain body appends what its statements emit and record, outside any tree and list; a nested Run that fails leaves a stash even when the body ignores it |
| `Recording.Session.RecordAggregate` | api/aggregate.go:237-262 | appends the records of the members the tree lacks, and of no other, and ends a tree it began |
| `Blocks.Wrapped` | api/plan.go:670-684 | a when-block around a balanced body is balanced |
| `RecordedGuards.GuardedLines` | api/plan.go:670-684 | on the plan's own lines, the body of a guarded task begins with a when_begin of ID "when." and its name that carries its guard and privilege and requires nothing, and ends with a when_end of that privilege |
| `RecordedGuards.UnguardedLines` | api/plan.go:670-684 | without a guard nothing is added around a body |
| `RecordedGuards.GuardedApplies` | api/plan.go:670-684 | an op recorded inside a guarded body, also by what it runs or lists, is applied only where the guard is met |
| `RecordLaws.RecordableMeans` | api/plan.go:589-690 | what it takes to be recordable in the tasks' own fields: an alias of a recordable task that is no alias; or an opaque guard that holds, needs that all name a recordable task, and members of which some are taken and all taken are recordable, or Run lists of recordable names |
| `PlanRecording.RecordPlanBody` | api/plan.go:411-431 | succeeds exactly when every listed name is recordable (all it calls for is registered, resolvable and sound, and none of it leads back to itself) and the chunks of the recorded plan keep the five rules of the pre-flight; the plan then is the header and the list's record, every Run list in it keeps its discipline, the body is balanced if the emitted ops are, and its chunks are a split the apply theorems hold for; an error tells the truth |
| `RecordLaws.OneList` | api/task_needs.go:31-41 | the record of a list is unique, so the recorded plan is determined by the registry and the names |
| `RecordLaws.StepsRecordable` | api/plan.go:571-617 | whatever is recorded was recordable: a cycle or an unknown name anywhere below it would have failed |
| `RecordLaws.StepsBalanced` | api/plan.go:670-684 | if what the bodies emit is balanced, so is everything recorded |
| `RecordLaws.WithoutNeeds` | api/task_needs.go:41 | in a registry without Needs every listed name is recorded, none is skipped |
| `RecordOnce.ListRecordsOnce` | api/task_needs.go:16-23 | without aggregates a list whose names stand for different tasks records each task once, listed before or after what needs it, and only what it names or Needs ask for |
| `RecordOnce.NeedTakenIff` | api/task_needs.go:215-271 | a need is recorded right there exactly if neither its list, whoever asked, nor its tree has recorded its task before |
| `RecordOnce.MemberTakenIff` | api/aggregate.go:226-262 | a member is recorded right there exactly if its tree has not recorded its task before, as a member or as a need |
| `RecordSpans.StepsComplete` | api/plan.go:650-686 | the lines of each recorded body are exactly its when_begin, what its statements or members add, and its when_end |
| `RecordSpans.StepsInOrder` | api/task_needs.go:16-19 | each recorded body begins after the complete body of each of its needs, and an aggregate's ends after those of its members, in its own list or tree |
| `RecordSpans.StepsOnce` | api/aggregate.go:30-31 | inside a tree no task is recorded twice, whether as a member or as a need, and the tree's set holds exactly what was recorded |
| `RecordSpans.PlainBody` | api/plan.go:624-630 | a plain body's lines are its statements' one after the other, each nested Run list a record of its own |
| `RecordLists.EveryListKeeps` | api/plan.go:571-617 | every Run list of a recorded plan, nested at any depth, lies in one piece in it, and in the plan's own lines every body is whole between its when-lines, behind the complete bodies of its needs and around those of its members, no task is twice in a tree, nothing operational is in a pattern's tree and every listed target is in the list |
| `RecordSpans.BodyHarmless` | api/aggregate.go:27-29 | a pattern aggregate pulls in nothing operational, not through needs, aliases or nested aggregates either |
| `Amend.AmendKeepsAcyclic` | resource/amend.go:103-112 | adding several dependencies at once keeps the graph acyclic exactly when each of them alone neither is nor reaches the resource |
| `Amend.Repository.Reaches` | resource/amend.go:174-196 | finds the target exactly when at least one edge leads there from the start; unregistered ids end the walk |
| `Amend.Repository.CheckAmendable` | resource/amend.go:147-169 | accepts exactly the registered ids no new dependency of which is or reaches it |
| `Amend.Repository.AmendRegistered` | resource/amend.go:117-143 | on error nothing changes; on success exactly the new edges and the draft are stored, and the registered graph stays acyclic |
| `Recorded.Recorder.Record` | plan/record.go:56-64 | while recording, appends the op behind all that was recorded before; otherwise does nothing |
| `Recorded.Recorder.AmendRecorded` | plan/record.go:85-113 | replaces the last op carrying the id exactly when only resource ops of its class follow and the new op keeps the class; otherwise nothing changes |
| `Recorded.AmendedSameChunk` | plan/record.go:71-84 | whatever is recorded next, an amendable op and all ops recorded after it are cut into one privilege chunk |
| `Recorded.AmendedNeverRefused` | plan/record.go:71-84 | so a new dependency on such an op is never refused by the chunk check or the sort, nor a watch unless an earlier chunk carries the same ID |

## Left out

- Handlers, their resources, secrets, inventory, constructors, logging and message text: an error is a kind and the indexes or names it carries.
- Wire encoding, schema versions, blob stores, staging, push framing, fleet and SSH delivery, and the elevated re-exec.
- The header check of an apply (version and kind) and the sudo or doas pre-flight of elevated chunks.
- RecordPlanBody: does not include packaging failures and the scan of recorded ops for secrets (`recordingPackErr` and `markRecordedControlOps`, api/plan.go:416-426), which can still refuse a plan that keeps every rule; the schema version of the header is not modelled.
- The message text of refusals in api/preflight.go, including the conflict note; conflicts are keyed by index pairs instead of ID pairs, so two ops sharing an ID do not share an entry.
- `container/heap`, `sort.SearchInts` and `slices` are modelled by what their documentation promises; their sources are not part of this model.
- Cost bounds, mutexes and the sharing of backing arrays: lists are values, so that `cloneAdjacency` protects its argument holds by construction.
- Path text: paths are cleaned component lists, so `path.Clean` and the expansion of `${HOME}` are not modelled.
- Unicode lower-casing in `hostname_contains` is a function of the host facts.
- Method expressions in Needs (api/task_needs.go:287-487) and the reflection behind them; needs are names.
- Task bodies as Go code: a body is a list of emitted ops and nested Run lists. Emitted ops keep the privilege they are given; the list of tasks with an opaque guard only, the check for resources without a draft, errors the declaration of a resource reports, amendments made while a body runs and packaging failures are not modelled there (`Recorded` models the amendment itself).
- Which tasks a pattern matches and which are active is part of the registry value.
- BodyHarmless: does not cover what a plain body's own Run list records, because the source's filter does not look into bodies.
- ListRecordsOnce: is about lists without aggregates whose names stand for different tasks, because a list records a name given twice twice and an aggregate records its members again; NeedTakenIff and MemberTakenIff say what is skipped with aggregates too.
- HeaderWatchDiffers: is one family of plans, any header, an unprivileged op and a privileged one gated on the header; the exact condition is SameWatchRefused.
- Wrapping of stashed errors: an error is its root cause, and the chain of aggregate names around it is not kept.
- PrepareElevated: does not include the rewording of a watch across chunks, which Preflight models, and names the pre-flight's own verdict instead.
- AmendedSameChunk: is stated for resource ops, because the source does not check the kind of the amended op itself.
- AmendRegistered: takes the answer of the record-mode sink as a parameter.
