# A verified model of the Tai-e / Bamboo points-to solver

This project models the worklist solver of Bamboo's context-sensitive points-to analysis (`PointerAnalysisImpl`) in Dafny, together with four small pieces of the same code base: the string-constant interning pool, the call-graph `Edge` value, the `BitSet` behaviour its unit tests fix, and the bug-finder's `BugInstance` record.

## What is modelled

**The solver** (`pta_program.dfy`, `pta_state.dfy`, `pta_steps.dfy`, `pta_facts.dfy`, `pta_solver.dfy`).
- `PtaProgram` describes the analysed program: pointers, abstract objects under heap contexts, call sites, statements, methods, and a class hierarchy in which every class has a depth. The collaborators the solver consults are uninterpreted functions of a `Program` value:
  - assignability;
  - virtual, interface and special dispatch;
  - the heap model;
  - the two context selectors.
- `PtaState` gathers the solver's tables into one value, `Tables`. It holds:
  - the points-to sets;
  - the out-edges of the pointer-flow graph, in insertion order;
  - the call graph with its entry and reachable context-sensitive methods;
  - the reachable methods and the initialized classes;
  - the two FIFO work-list queues.

  It defines the effect of the two primitive updates as functions: `Propagated` for propagating a set, and `WithEdge` for offering a flow edge. It also states the invariants the solver keeps:
  - `FlowClosed`: every edge has carried, or the queue will carry, its source's filtered set to its target;
  - `EdgeShapes`: array stores are guarded by the array's element type;
  - `InitMarked`: a class is marked only if it has an initializer, and only after its superclasses;
  - `VarClosedExcept`: every transfer rule has been applied to every object resident in a variable;
  - `Reached`: every reachable method has had its statements and class-initialization triggers processed, and every call-graph edge has been wired.
- `PtaSolver.Solver` is a class whose fields are those tables. Its methods follow the Java methods; a Java method whose body holds several loops is split into one method per loop (`processCall`, `processCallEdge` and `solve`), and the four structural rules of `solve` share one method, `ConnectRule`, parameterised by the rule. The contract of every method except the constructor, `Reset`, `Initialize`, `Analyze` and the primitives states the invariants it keeps and `Grows` (nothing is ever lost). The constructor, `Reset`, `Initialize` and `Analyze` start from empty tables, so nothing is kept from before. The primitives are the `Add*` queue methods, `Propagate`, `AddPFGEdge` and `ConnectNext`. They state only their exact new state. For `ConnectNext` that includes the invariant; for the others the lemmas about `Queued`, `Propagated` and `WithEdge` (`PushKeepsInvariant`, `PropagatedGrows`, `WithEdgeGrows`, `WithEdgeKeepsInvariant` and their neighbours) supply it where their callers need it. Beyond that, the methods fall in two groups:
  - exact: `Propagate`, `AddPFGEdge`, the `Add*` queue methods, `Connect`, `ConnectNext`, `ConnectRuleStatement`, `ConnectRule`, `Dispatch`, `ProcessCallSite`, `ProcessCall`, `PassArguments`, `PassResults`, `PassReturnVars`, `WireCallEdge`, `ProcessStatement`, `ProcessStatements`, `SetUpMainArguments` and `Reset` tie the whole new state to a function of the old state (`Propagated`, `WithEdge`, `WithEdges` of the edges inserted, `Queued` of the entries enqueued, `StmtEffect`);
  - bounded in part: the class-initialization recursion (`ProcessNewCSMethod`, `ProcessNewMethod`, `VisitForInit`, `VisitAllocation`, `VisitAllocatedType`, `InitializeClass`, `RunClassInitializer`) and the entry methods (`ProcessEntry`, `ProcessEntries`, `Initialize`) state what is processed afterwards (the recursion also leaves the points-to sets and the call graph unchanged), and bound from above what becomes reachable (`ReachedOnly`: only the methods they are given and the initializers of the classes they initialize). `ProcessPointerEntry` states its points-to sets exactly. `ProcessCallEdge` is exact for an edge already in the call graph; for a new edge it states the edges it wires exactly, on top of the callee's processing, which is bounded as `ProcessNewCSMethod` is. These methods, and the loops `ConnectRules`, `ApplyRules`, `DrainPointerEntries`, `DrainCallEntries`, `Solve` and `Analyze`, do not state their new flow edges and queues exactly; "## Left out" lists each of them.
- `PtaSteps` defines those functions of the old state for the composite steps, and proves what each of them adds and keeps.
- `PtaFacts` proves the lemmas that connect the pieces. The final one, `FixpointIsClosed`, states what a drained work list means: every points-to set is closed under the flow edges, every receiver object has been dispatched, every reachable statement has been processed, and every call edge has been wired.

**The smaller cores.**
- `StringConstantPool.Pool` is interning over a map field.
- `CallGraphEdge` models the `Edge` value with its cached hash.
- `BitSets.BitSet` is a class over a `set<nat>`. Its in-place operations return whether they changed the set, and the unit-test scenarios are replayed as client methods.
- `BugInstances.BugInstance` is a class with fluent setters, the line-range part of `toString`, `equals`, `hashCode` and `compareTo`.

`initializeClass` marks a class only inside the `ifPresent` of its initializer (PointerAnalysisImpl.java:546-550), so a class without an initializer is never added to `initializedClasses`. The model keeps `InitMarked` (every marked class has an initializer), and `ClassInitDone` treats a class without an initializer as done.

`Edge.equals` of `pascal.taie.analysis.graph.callgraph` compares kind, call site and callee, and `CallGraphEdge.EqualsIsValueEquality` shows that, for edges built by the constructor, this is the same as equality of the values. The solver itself uses `bamboo.callgraph.Edge` (PointerAnalysisImpl.java:18), which is not part of this model; its own datatype `PtaProgram.CallEdge` takes only `CallKind` from `CallGraphEdge`, and keeping the call graph as a `set<CallEdge>` is an assumption listed below.

Several functions are definitions whose properties are stated by lemmas, and the table names those lemmas: `PtaState.Propagated` (the `Propagated*` rows), `PtaState.WithEdge` (the `WithEdge*` rows), `PtaState.Filtered` (`FilteredMonotone`, `FilteredUnion`), `PtaProgram.InitTriggers` (`VisitForInit`, `TriggersDoneMethod`), `PtaProgram.StaticCallEdge` (`ProcessStatement`), `PtaProgram.InstanceCallEdge` (`Dispatch`), `BugInstances.LineRange` (the `LineRange*` rows and `OneLineIffDigits`), `BugInstance.Equals`, `HashCode` and `CompareTo` (`EqualsIffSameFields`, `EqualReportsHaveEqualHashes`, `CompareToOrdersByStart`), and `CallGraphEdge.Equals` (`EqualsIffSameComponents`).

## Model

| member | source | states |
|---|---|---|
| PtaProgram.ResolveCallee | src/main/java/bamboo/pta/core/solver/PointerAnalysisImpl.java:503-516 | dispatch fails exactly for call kinds other than interface, virtual and special, and the failure carries the unknown call site |
| PtaProgram.ComputeEntries | src/main/java/bamboo/pta/core/solver/PointerAnalysisImpl.java:227-234 | the main method comes first, the list has one more entry than the implicit entries analysed, and a method is an entry exactly when it is the main method or an implicit entry that is analysed |
| PtaState.Assignable | src/main/java/bamboo/pta/core/solver/PointerAnalysisImpl.java:303-310 | the assignable part of a set is a subset of it, and an object belongs to it exactly when its type can be assigned to the target type |
| PtaState.RuleEdge | src/main/java/bamboo/pta/core/solver/PointerAnalysisImpl.java:355-424 | every edge a load or store rule asks for has the right shape: an array store is guarded by the array's element type, and other rule edges carry no filter |
| PtaFacts.PropagatedPointsTo | src/main/java/bamboo/pta/core/solver/PointerAnalysisImpl.java:270-275 | after propagation the target's set is its old set united with the incoming one, the new part is exactly the incoming objects not already there, and no other pointer changes |
| PtaFacts.PropagatedRedelivery | src/main/java/bamboo/pta/core/solver/PointerAnalysisImpl.java:276-289 | re-delivering objects the pointer already holds changes no set and enqueues nothing |
| PtaFacts.PropagatedSendsAlongEdges | src/main/java/bamboo/pta/core/solver/PointerAnalysisImpl.java:276-288 | a non-empty delta sends one entry per out-edge, in edge order: the type-filtered delta on a typed edge, the delta itself otherwise |
| PtaFacts.PropagatedGrows | src/main/java/bamboo/pta/core/solver/PointerAnalysisImpl.java:266-290 | propagation loses nothing the state knew before the entry was polled |
| PtaFacts.PropagatedFlowClosed | src/main/java/bamboo/pta/core/solver/PointerAnalysisImpl.java:276-288 | propagation keeps every flow edge closed: what reaches a source is on its way to every target |
| PtaFacts.PropagatedOpensDiff | src/main/java/bamboo/pta/core/solver/PointerAnalysisImpl.java:245-252 | after propagation only the new delta of the propagated pointer still owes the transfer rules; all older facts stay closed |
| PtaFacts.PropagatedKeepsShapes | src/main/java/bamboo/pta/core/solver/PointerAnalysisImpl.java:266-290 | propagation leaves the edge shapes and the initialized-class marking intact |
| PtaFacts.PendingOutEntries | src/main/java/bamboo/pta/core/solver/PointerAnalysisImpl.java:277-287 | what the out-entries of a delta carry to an edge's target includes the delta filtered by that edge |
| PtaFacts.FilteredMonotone | src/main/java/bamboo/pta/core/solver/PointerAnalysisImpl.java:303-310 | filtering by type is monotone in the filtered set |
| PtaFacts.FilteredUnion | src/main/java/bamboo/pta/core/solver/PointerAnalysisImpl.java:303-310 | filtering by type distributes over union |
| PtaFacts.WithEdgeHasEdge | src/main/java/bamboo/pta/core/solver/PointerAnalysisImpl.java:317-326 | after an insertion the graph has the edge |
| PtaFacts.WithEdgeIdempotent | src/main/java/bamboo/pta/core/solver/PointerAnalysisImpl.java:318 | offering the same edge, with the same filter, a second time changes nothing |
| PtaFacts.SecondCastDroppedByKindKey | src/main/java/bamboo/pta/core/solver/PointerAnalysisImpl.java:317-318 | a graph keyed on source, target and kind drops a second cast between the same variables with another type, and the object that cast admits never reaches its target |
| PtaFacts.SecondCastKeptByFilterKey | src/main/java/bamboo/pta/core/solver/PointerAnalysisImpl.java:620-624 | keyed on the filter too, the second cast gets its own edge, which delivers that object |
| PtaFacts.WithEdgeReplays | src/main/java/bamboo/pta/core/solver/PointerAnalysisImpl.java:317-326 | a new edge is appended to the source's out-edges, and the source's current filtered set is enqueued to the target exactly when it is not empty |
| PtaFacts.WithEdgeGrows | src/main/java/bamboo/pta/core/solver/PointerAnalysisImpl.java:317-326 | inserting an edge loses nothing |
| PtaFacts.WithEdgeKeepsInvariant | src/main/java/bamboo/pta/core/solver/PointerAnalysisImpl.java:317-326 | inserting a well-shaped edge keeps the solver invariant, because the replay closes the new edge |
| PtaFacts.PushKeepsInvariant | src/main/java/bamboo/pta/core/solver/PointerAnalysisImpl.java:295-297 | enqueueing a pointer entry keeps the invariant, loses nothing, and makes its objects known at its pointer |
| PtaFacts.PushCallKeepsInvariant | src/main/java/bamboo/pta/core/solver/PointerAnalysisImpl.java:446-447 | enqueueing a call edge keeps the invariant and loses nothing |
| PtaFacts.StructuralRuleCloses | src/main/java/bamboo/pta/core/solver/PointerAnalysisImpl.java:355-424 | once a load or store rule has added its edges for every statement and every new object, that rule is no longer owed |
| PtaFacts.CallRuleCloses | src/main/java/bamboo/pta/core/solver/PointerAnalysisImpl.java:432-454 | once every call on the variable has been dispatched for every new object, the call rule is no longer owed |
| PtaSteps.CallLoopPassed | src/main/java/bamboo/pta/core/solver/PointerAnalysisImpl.java:432-454 | when the call rule's loop has done every call site, the rule is closed, only the call and pointer queues grew, and the points-to sets, graph and reachability are unchanged |
| PtaFacts.RuleEdgesDoneExtend | src/main/java/bamboo/pta/core/solver/PointerAnalysisImpl.java:358-365 | one more statement of a structural rule done for all objects extends the prefix that is done |
| PtaFacts.CallsDoneExtend | src/main/java/bamboo/pta/core/solver/PointerAnalysisImpl.java:435-453 | one more call site dispatched for all objects extends the prefix that is done |
| PtaFacts.StructuralRuleStep | src/main/java/bamboo/pta/core/solver/PointerAnalysisImpl.java:248-251 | the structural rules are distinct, so applying them one after the other closes one more each time and never the call rule |
| PtaFacts.StructuralRulesApplied | src/main/java/bamboo/pta/core/solver/PointerAnalysisImpl.java:248-252 | once the four structural rules are applied, only the call rule is still owed |
| PtaFacts.ResultsPassedAll | src/main/java/bamboo/pta/core/solver/PointerAnalysisImpl.java:479-485 | when all return variables are wired, every return variable has a return edge into the left-hand side |
| PtaFacts.NothingOpen | src/main/java/bamboo/pta/core/solver/PointerAnalysisImpl.java:246-253 | with no rule owed, or for a pointer that is not a variable, the full invariant holds |
| PtaFacts.ReachOnlyKeepsInvariant | src/main/java/bamboo/pta/core/solver/PointerAnalysisImpl.java:338-347 | growing only the reachable sets keeps the invariant |
| PtaFacts.MarkKeepsInvariant | src/main/java/bamboo/pta/core/solver/PointerAnalysisImpl.java:546-550 | marking a class that has an initializer, once its superclasses are done, keeps the invariant |
| PtaFacts.ClassInitDoneGrows | src/main/java/bamboo/pta/core/solver/PointerAnalysisImpl.java:536-555 | a class whose initialization is done stays done as more classes are marked |
| PtaFacts.TriggersDoneExtend | src/main/java/bamboo/pta/core/solver/PointerAnalysisImpl.java:492-498 | visiting one more statement for class initialization extends the prefix whose triggered classes are done |
| PtaFacts.TriggersDoneMethod | src/main/java/bamboo/pta/core/solver/PointerAnalysisImpl.java:495-496 | when all statements of a method are visited, every class the method triggers is initialized |
| PtaFacts.PopCallEdge | src/main/java/bamboo/pta/core/solver/PointerAnalysisImpl.java:460-461 | moving a polled call edge into the call graph keeps the invariant and loses nothing |
| PtaFacts.NewCallEdgeReached | src/main/java/bamboo/pta/core/solver/PointerAnalysisImpl.java:459-487 | adding a new call edge, making its callee reachable and wiring it restores the reachability invariant |
| PtaFacts.NewEntryReached | src/main/java/bamboo/pta/core/solver/PointerAnalysisImpl.java:209-215 | adding an entry method and making it reachable restores the reachability invariant |
| PtaFacts.ReachedAddEdge | src/main/java/bamboo/pta/core/solver/PointerAnalysisImpl.java:459-487 | a state with one more call edge is fully reached when the new callee is reachable, the edge is wired, and everything newly reached is processed |
| PtaFacts.ReachedGrows | src/main/java/bamboo/pta/core/solver/PointerAnalysisImpl.java:338-347 | the reachability invariant survives growth in which every new method is processed and every new call edge is wired |
| PtaFacts.NewlyDoneChain | src/main/java/bamboo/pta/core/solver/PointerAnalysisImpl.java:338-347 | "everything newly reached is processed" composes across consecutive steps |
| PtaFacts.NewlyDoneAfterMark | src/main/java/bamboo/pta/core/solver/PointerAnalysisImpl.java:546-553 | marking a method or class and then processing it leaves everything new processed |
| PtaFacts.ReachedOnlyChain | src/main/java/bamboo/pta/core/solver/PointerAnalysisImpl.java:338-347 | "only these methods, or initializers of newly initialized classes, become reachable" composes across consecutive steps, with the union of the named methods |
| PtaFacts.ReachedOnlyClinit | src/main/java/bamboo/pta/core/solver/PointerAnalysisImpl.java:546-550 | the initializer of a class newly initialized in a step need not be named among the methods that step may reach |
| PtaFacts.ReachedOnlyExcludes | src/main/java/bamboo/pta/core/solver/PointerAnalysisImpl.java:338-347 | a method that is neither named nor any class's initializer does not become reachable in such a step |
| PtaFacts.ReachedOnlySameStart | src/main/java/bamboo/pta/core/solver/PointerAnalysisImpl.java:459-463 | the reachability bound of a step depends on its starting state only through what is reachable and initialized there, so popping the call queue and recording a call edge do not change it |
| PtaFacts.GrowsTransitive | src/main/java/bamboo/pta/core/solver/PointerAnalysisImpl.java:239-260 | monotone growth of the tables composes |
| PtaFacts.CSEntriesSnoc | src/main/java/bamboo/pta/core/solver/PointerAnalysisImpl.java:209-215 | one more entry method adds exactly its default-context method |
| PtaFacts.EntryClassesDoneSnoc | src/main/java/bamboo/pta/core/solver/PointerAnalysisImpl.java:210-211 | after the class of one more entry is initialized, the classes of all entries so far are done |
| PtaFacts.EntriesProcessedStep | src/main/java/bamboo/pta/core/solver/PointerAnalysisImpl.java:209-215 | processing entry `k` extends the processed prefix of the entry loop |
| PtaFacts.EmptyTablesClosed | src/main/java/bamboo/pta/core/solver/PointerAnalysisImpl.java:192-196 | the empty tables satisfy both invariants |
| PtaFacts.FixpointIsClosed | src/main/java/bamboo/pta/core/solver/PointerAnalysisImpl.java:239-260 | at a fixpoint each of the following holds: every known object is resident, every known call edge is in the call graph, every flow edge's filtered source set is in its target (array stores filtered by element type), every transfer rule is applied to every resident object, every reachable statement is processed, every cast of a reachable method delivers every source object its type admits, and every call edge has a reachable, wired callee |
| PtaSteps.WithEdgesKeeps | src/main/java/bamboo/pta/core/solver/PointerAnalysisImpl.java:317-326 | a run of insertions loses nothing and changes neither the points-to sets, the call queue nor reachability |
| PtaSteps.WithEdgesInstalls | src/main/java/bamboo/pta/core/solver/PointerAnalysisImpl.java:317-326 | a run of insertions installs each of its edges, and (by `WithEdgesKeeps`) changes neither the points-to sets, the call queue nor reachability, and loses nothing |
| PtaSteps.WithEdgesOnlyAdds | src/main/java/bamboo/pta/core/solver/PointerAnalysisImpl.java:317-326 | a run of insertions adds no edge but its own, and queues nothing but replays of the filtered source sets along them |
| PtaSteps.QueuedGrows | src/main/java/bamboo/pta/core/solver/PointerAnalysisImpl.java:295-297 | enqueueing call edges and entries loses nothing and changes neither the points-to sets, the graph nor reachability |
| PtaSteps.StmtEffectGrows | src/main/java/bamboo/pta/core/solver/PointerAnalysisImpl.java:605-652 | the effect of a statement loses nothing and changes neither the points-to sets nor reachability |
| PtaSteps.StmtEffectDone | src/main/java/bamboo/pta/core/solver/PointerAnalysisImpl.java:605-652 | after its effect a statement is processed: the allocation's object on its way to its variable, the statement's edge in the graph with its filter, or the static call's edge known |
| PtaSteps.StmtsEffectGrows | src/main/java/bamboo/pta/core/solver/PointerAnalysisImpl.java:341-344 | the effects of a method's statements in order lose nothing and change neither the points-to sets nor reachability |
| PtaSteps.StmtsEffectDone | src/main/java/bamboo/pta/core/solver/PointerAnalysisImpl.java:341-344 | after the effects of a method's statements in order, every one of them is processed |
| PtaSteps.ArgEdgesNext | src/main/java/bamboo/pta/core/solver/PointerAnalysisImpl.java:469-477 | argument `i` adds its parameter-passing edge to the run exactly when it is present and has a parameter |
| PtaSteps.ArgEdgesFailAt | src/main/java/bamboo/pta/core/solver/PointerAnalysisImpl.java:473-475 | stopping at an argument without a parameter leaves the points-to sets and reachability unchanged |
| PtaSteps.ArgEdgesPassAll | src/main/java/bamboo/pta/core/solver/PointerAnalysisImpl.java:469-477 | when every present argument has a parameter, the argument edges pass each of them, and nothing is lost |
| PtaSteps.MainEntriesSeeded | src/main/java/bamboo/pta/core/solver/PointerAnalysisImpl.java:216-222 | queuing the two main-argument entries keeps the reachability invariant, loses nothing, and makes the element known at the array's index and the array known at main's first parameter |
| PtaSolver.Solver.constructor | src/main/java/bamboo/pta/core/solver/PointerAnalysisImpl.java:192-196 | a new solver holds the empty tables |
| PtaSolver.Solver.Reset | src/main/java/bamboo/pta/core/solver/PointerAnalysisImpl.java:192-196 | initialization starts from the empty tables, points-to sets included |
| PtaSolver.Solver.AddPointerEntry | src/main/java/bamboo/pta/core/solver/PointerAnalysisImpl.java:295-297 | the entry is appended to the pointer queue and nothing else changes |
| PtaSolver.Solver.AddCallEntry | src/main/java/bamboo/pta/core/solver/PointerAnalysisImpl.java:446-447 | the call edge is appended to the call queue and nothing else changes |
| PtaSolver.Solver.AddPointsToSet | src/main/java/bamboo/pta/core/solver/PointerAnalysisImpl.java:173-177 | the set is queued for the variable under its context, and nothing else changes |
| PtaSolver.Solver.AddVarPointsTo | src/main/java/bamboo/pta/core/solver/PointerAnalysisImpl.java:165-171 | the singleton of the object under its heap context is queued for the variable, and nothing else changes |
| PtaSolver.Solver.AddArrayPointsTo | src/main/java/bamboo/pta/core/solver/PointerAnalysisImpl.java:179-186 | the singleton element object is queued for the array object's element pointer, and nothing else changes |
| PtaSolver.Solver.Propagate | src/main/java/bamboo/pta/core/solver/PointerAnalysisImpl.java:266-290 | the returned delta is the incoming set minus the old set, and the new tables are exactly `Propagated` of the old ones |
| PtaSolver.Solver.AddPFGEdge | src/main/java/bamboo/pta/core/solver/PointerAnalysisImpl.java:317-333 | the new tables are exactly `WithEdge` of the old ones: an edge already present with the same filter is a no-op, and a new edge replays the source set |
| PtaSolver.Solver.Connect | src/main/java/bamboo/pta/core/solver/PointerAnalysisImpl.java:317-326 | an edge insertion during rule application keeps the invariant with the same owed rules, and leaves the points-to sets, the call queue and reachability untouched |
| PtaSolver.Solver.ConnectNext | src/main/java/bamboo/pta/core/solver/PointerAnalysisImpl.java:317-326 | one more insertion of a run keeps the invariant and extends the run's tables by that edge |
| PtaSolver.Solver.ConnectRuleStatement | src/main/java/bamboo/pta/core/solver/PointerAnalysisImpl.java:358-365 | for one load or store statement, the new tables are exactly the old ones with the rule's edge for each delta object inserted, in the order the set yields them; each of those edges is present afterwards |
| PtaSolver.Solver.ConnectRule | src/main/java/bamboo/pta/core/solver/PointerAnalysisImpl.java:355-424 | a load or store rule inserts exactly its edges for every statement and every delta object, statement by statement, and nothing else; afterwards the rule is no longer owed |
| PtaSolver.Solver.ConnectRules | src/main/java/bamboo/pta/core/solver/PointerAnalysisImpl.java:248-251 | the four structural rules applied in order leave only the call rule owed |
| PtaSolver.Solver.Dispatch | src/main/java/bamboo/pta/core/solver/PointerAnalysisImpl.java:437-452 | for one receiver object, an undispatchable call aborts with the state unchanged; otherwise exactly the resolved call edge and the receiver for the callee's `this` are queued |
| PtaSolver.Solver.ProcessCallSite | src/main/java/bamboo/pta/core/solver/PointerAnalysisImpl.java:436-452 | one call site fails exactly when the delta is not empty and the call is not dispatchable, and then changes nothing; otherwise exactly one call edge and one `this` entry per delta object are queued, in the order the set yields them, and nothing else changes |
| PtaSolver.Solver.ProcessCall | src/main/java/bamboo/pta/core/solver/PointerAnalysisImpl.java:432-454 | the call rule fails exactly when the delta is not empty and some call on the variable is not dispatchable; otherwise exactly the call edges and `this` entries of every call site and delta object are queued, call site by call site, nothing else changes, and the call rule is closed |
| PtaSolver.Solver.ApplyRules | src/main/java/bamboo/pta/core/solver/PointerAnalysisImpl.java:246-253 | the five rules on a delta fail exactly as the call rule does, and otherwise restore the full invariant |
| PtaSolver.Solver.ProcessPointerEntry | src/main/java/bamboo/pta/core/solver/PointerAnalysisImpl.java:242-254 | handling the head entry aborts exactly when it brings a new object to a variable with an undispatchable call; otherwise the head's objects are added to its pointer's set and no other points-to set changes, both invariants hold and nothing is lost; the call graph, the reachable methods and the initialized classes never change |
| PtaSolver.Solver.DrainPointerEntries | src/main/java/bamboo/pta/core/solver/PointerAnalysisImpl.java:241-255 | the inner loop either empties the pointer queue with both invariants kept, runs out of fuel with them kept, or aborts |
| PtaSolver.Solver.DrainCallEntries | src/main/java/bamboo/pta/core/solver/PointerAnalysisImpl.java:256-258 | the call loop either empties the call queue with both invariants kept, runs out of fuel with them kept, or aborts |
| PtaSolver.Solver.Solve | src/main/java/bamboo/pta/core/solver/PointerAnalysisImpl.java:239-260 | a fixpoint leaves both queues empty, and unless the run aborted both invariants hold |
| PtaSolver.Solver.ProcessCallEdge | src/main/java/bamboo/pta/core/solver/PointerAnalysisImpl.java:459-487 | an edge already in the call graph changes nothing; a new edge is added and its callee processed, which loses nothing and makes reachable only the callee and initializers of classes initialized on the way; then exactly its argument and return edges are inserted; wiring fails exactly when some present argument has no parameter (reporting the first such index, after the edges of the arguments before it); otherwise both invariants hold |
| PtaSolver.Solver.WireCallEdge | src/main/java/bamboo/pta/core/solver/PointerAnalysisImpl.java:464-485 | the new tables are exactly the old ones with the argument edges and then the return edges inserted; it fails exactly when a present argument has no parameter, after inserting only the argument edges before it; otherwise the edge is fully wired, and reachability is untouched either way |
| PtaSolver.Solver.PassArguments | src/main/java/bamboo/pta/core/solver/PointerAnalysisImpl.java:469-477 | exactly the parameter-passing edges of the present arguments before the stopping point are inserted, in argument order; it fails exactly when some present argument has no parameter at its index (absent or past the end), stopping at the first one; otherwise every present argument is passed |
| PtaSolver.Solver.PassResults | src/main/java/bamboo/pta/core/solver/PointerAnalysisImpl.java:479-485 | with a left-hand side, exactly the return edges of the callee's return variables are inserted, and each is present afterwards; without one nothing changes |
| PtaSolver.Solver.PassReturnVars | src/main/java/bamboo/pta/core/solver/PointerAnalysisImpl.java:481-484 | exactly one return edge per return variable in the list is inserted, in list order, and each is present afterwards |
| PtaSolver.Solver.ProcessNewCSMethod | src/main/java/bamboo/pta/core/solver/PointerAnalysisImpl.java:338-347 | a context-sensitive method is processed only the first time (afterwards the call is a no-op); the first time, its statements and everything it reaches are processed, the points-to sets and the call graph do not change, and what becomes reachable is only the method itself and the initializers of the classes it initializes |
| PtaSolver.Solver.ProcessNewMethod | src/main/java/bamboo/pta/core/solver/PointerAnalysisImpl.java:492-498 | initialization triggers of a method are visited once per method, whatever the context; a repeat is a no-op; what becomes reachable is only the method itself and the initializers of the classes it initializes |
| PtaSolver.Solver.ProcessStatements | src/main/java/bamboo/pta/core/solver/PointerAnalysisImpl.java:341-344 | the new tables are exactly those of the statements' effects applied in order, and every statement of the method is processed (a cast with its own type as the filter) |
| PtaSolver.Solver.ProcessStatement | src/main/java/bamboo/pta/core/solver/PointerAnalysisImpl.java:605-652 | the new tables are exactly `StmtEffect` of the old ones: an allocation queues its context-qualified object for its variable, an assignment, a cast (filtered by the cast type) or a static load or store inserts its one edge, a static call queues its one call edge, and the other statements change nothing; the invariant is kept |
| PtaSolver.Solver.VisitForInit | src/main/java/bamboo/pta/core/solver/PointerAnalysisImpl.java:558-587 | every class a statement triggers is initialized afterwards, the points-to sets and the call graph do not change, and the only methods that become reachable are initializers of classes it initializes |
| PtaSolver.Solver.VisitAllocation | src/main/java/bamboo/pta/core/solver/PointerAnalysisImpl.java:558-569 | the class of a class object and the allocated class (or array element class) are initialized, and the only methods that become reachable are initializers of classes it initializes |
| PtaSolver.Solver.VisitAllocatedType | src/main/java/bamboo/pta/core/solver/PointerAnalysisImpl.java:563-568 | a class type is initialized itself, and an array type's base type is initialized; the only methods that become reachable are initializers of classes it initializes |
| PtaSolver.Solver.InitializeClass | src/main/java/bamboo/pta/core/solver/PointerAnalysisImpl.java:536-555 | afterwards the class and all its superclasses are done; an already initialized class is a no-op; the only methods that become reachable are initializers of newly initialized classes |
| PtaSolver.Solver.RunClassInitializer | src/main/java/bamboo/pta/core/solver/PointerAnalysisImpl.java:546-554 | a class with an initializer, whose superclasses are done, ends up done, and every method or class this newly reaches or marks is processed (a newly marked class has its initializer reachable); what becomes reachable is only its initializer and the initializers of further classes it initializes |
| PtaSolver.Solver.ProcessEntry | src/main/java/bamboo/pta/core/solver/PointerAnalysisImpl.java:210-214 | an entry's class is initialized and its default-context method becomes an entry of the call graph, with both invariants kept; what becomes reachable is only that method and initializers of classes initialized on the way |
| PtaSolver.Solver.ProcessEntries | src/main/java/bamboo/pta/core/solver/PointerAnalysisImpl.java:209-215 | the entry methods are exactly the default-context versions of the entries, all their classes are initialized, and what becomes reachable is only those entries and initializers of classes initialized on the way |
| PtaSolver.Solver.SetUpMainArguments | src/main/java/bamboo/pta/core/solver/PointerAnalysisImpl.java:216-222 | exactly two entries are queued, the main-args element for the args array's index and, when main has a first parameter, the args object for it, and nothing else changes; both objects are then known there |
| PtaSolver.Solver.Initialize | src/main/java/bamboo/pta/core/solver/PointerAnalysisImpl.java:191-225 | after initialization both invariants hold, every entry method is reachable with its class initialized, the main arguments are seeded, and every reachable method is an entry or the initializer of an initialized class |
| PtaSolver.Solver.Analyze | src/main/java/bamboo/pta/core/solver/PointerAnalysisImpl.java:155-163 | a run that reaches a fixpoint leaves a closed state, empty queues and every entry reachable |
| StringConstantPool.StringConstant.constructor | src/main/java/bamboo/pta/env/StringConstantPool.java:40 | a constant records the type and text it was created with |
| StringConstantPool.Pool.constructor | src/main/java/bamboo/pta/env/StringConstantPool.java:29-36 | a new pool has an empty table and the type looked up for `java.lang.String` |
| StringConstantPool.Pool.GetStringConstant | src/main/java/bamboo/pta/env/StringConstantPool.java:38-41 | the literal ends up in the table and the constant returned is the one stored for it, with the pool's string type and the literal's text; a known literal returns its old constant and leaves the table alone; an unknown one adds exactly one fresh constant, and no other entry changes |
| StringConstantPool.LookupIsCanonical | src/main/java/bamboo/pta/env/StringConstantPool.java:38-41 | two lookups of the same literal, with another lookup between them, give the same object, and no earlier entry is disturbed |
| CallGraphEdge.NewEdge | src/main/java/pascal/taie/analysis/graph/callgraph/Edge.java:27-32 | a constructed edge caches the hash of its own three components |
| CallGraphEdge.GettersReturnArguments | src/main/java/pascal/taie/analysis/graph/callgraph/Edge.java:27-44 | the getters return exactly the constructor's arguments, and the hash code is the hash of them |
| CallGraphEdge.EqualsIffSameComponents | src/main/java/pascal/taie/analysis/graph/callgraph/Edge.java:47-54 | two edges are equal exactly when kind, call site and callee all agree |
| CallGraphEdge.EqualsReflexiveAndTyped | src/main/java/pascal/taie/analysis/graph/callgraph/Edge.java:48-49 | an edge equals itself and never equals null or an object of another class |
| CallGraphEdge.EqualsIsEquivalence | src/main/java/pascal/taie/analysis/graph/callgraph/Edge.java:47-54 | edge equality is symmetric and transitive |
| CallGraphEdge.EqualEdgesHaveEqualHashes | src/main/java/pascal/taie/analysis/graph/callgraph/Edge.java:31 | equal constructed edges have equal hash codes |
| CallGraphEdge.EqualsIsValueEquality | src/main/java/pascal/taie/analysis/graph/callgraph/Edge.java:47-59 | for constructed edges, `equals` coincides with value equality |
| BitSets.BitSet.constructor | src/test/java/pascal/taie/util/collection/BitSetTest.java:25 | a new bit set is empty |
| BitSets.BitSet.Of | src/test/java/pascal/taie/util/collection/BitSetTest.java:53 | `of` builds the set of the given indexes, with repetitions collapsed |
| BitSets.BitSet.Copy | src/test/java/pascal/taie/util/collection/BitSetTest.java:74 | the copy has the same members |
| BitSets.BitSet.Set | src/test/java/pascal/taie/util/collection/BitSetTest.java:24-31 | the index is added, and the result is true exactly when it was new |
| BitSets.BitSet.And | src/test/java/pascal/taie/util/collection/BitSetTest.java:35-44 | the set becomes the intersection, and the result is true exactly when a member was dropped |
| BitSets.BitSet.AndNot | src/test/java/pascal/taie/util/collection/BitSetTest.java:47-56 | the other set's members are removed, and the result is true exactly when some member was removed |
| BitSets.BitSet.Or | src/test/java/pascal/taie/util/collection/BitSetTest.java:60-69 | the set becomes the union, and the result is true exactly when some element was added |
| BitSets.BitSet.Xor | src/test/java/pascal/taie/util/collection/BitSetTest.java:72-76 | the set becomes the symmetric difference, and the result is true exactly when the other set is not empty |
| BitSets.BitSet.SetTo | src/test/java/pascal/taie/util/collection/BitSetTest.java:79-89 | the set becomes exactly the other set, the empty set included |
| BitSets.BitSet.Contains | src/test/java/pascal/taie/util/collection/BitSetTest.java:92-100 | the result is true exactly when this set is a superset of the other |
| BitSets.BitSet.Cardinality | src/test/java/pascal/taie/util/collection/BitSetTest.java:30 | the number of distinct members |
| BitSets.BitSet.IsEmpty | src/test/java/pascal/taie/util/collection/BitSetTest.java:42 | true exactly when there are no members |
| BugInstances.NatToString | src/main/java/pascal/taie/analysis/bugfinder/BugInstance.java:65 | the decimal text of a number is a non-empty digit string that reads back as the number, one digit exactly below ten, with no leading zero |
| BugInstances.IntToString | src/main/java/pascal/taie/analysis/bugfinder/BugInstance.java:65-66 | the decimal text of an integer reads back as the integer: its digits for a non-negative one, a minus sign before the digits of its negation for a negative one |
| BugInstances.NatToStringInjective | src/main/java/pascal/taie/analysis/bugfinder/BugInstance.java:65 | different numbers have different decimal texts |
| BugInstances.IntToStringInjective | src/main/java/pascal/taie/analysis/bugfinder/BugInstance.java:65-66 | different integers have different decimal texts |
| BugInstances.LineRangeEmptyIffNoStart | src/main/java/pascal/taie/analysis/bugfinder/BugInstance.java:63-67 | the rendered range is "empty" exactly when the start line is negative |
| BugInstances.OneLineIffDigits | src/main/java/pascal/taie/analysis/bugfinder/BugInstance.java:65-66 | with a known start, the rendered range is a plain number exactly when start and end agree |
| BugInstances.LineRangeDeterminesRange | src/main/java/pascal/taie/analysis/bugfinder/BugInstance.java:63-67 | a rendered range with a known start determines the start line, whether it is one line, and otherwise the end line |
| BugInstances.SplitAtFirstDash | src/main/java/pascal/taie/analysis/bugfinder/BugInstance.java:66 | a rendered range `start---end` splits uniquely at the first dash, since the start is digits |
| BugInstances.BugInstance.constructor | src/main/java/pascal/taie/analysis/bugfinder/BugInstance.java:42-47 | a new report has its type and severity, no class or method, and the empty range -1 .. -2 |
| BugInstances.BugInstance.SetClass | src/main/java/pascal/taie/analysis/bugfinder/BugInstance.java:103-106 | only the class changes, and the report itself is returned |
| BugInstances.BugInstance.SetMethod | src/main/java/pascal/taie/analysis/bugfinder/BugInstance.java:108-111 | only the method changes, and the report itself is returned |
| BugInstances.BugInstance.SetClassAndMethod | src/main/java/pascal/taie/analysis/bugfinder/BugInstance.java:97-101 | the method and its declaring class are set, the line range is kept, and the report itself is returned |
| BugInstances.BugInstance.SetSourceLine | src/main/java/pascal/taie/analysis/bugfinder/BugInstance.java:113-116 | start and end both become the line, class and method are kept, and the report itself is returned |
| BugInstances.BugInstance.SetSourceLineRange | src/main/java/pascal/taie/analysis/bugfinder/BugInstance.java:118-122 | start and end become the given values, class and method are kept, and the report itself is returned |
| BugInstances.NewBugInstance | src/main/java/pascal/taie/analysis/bugfinder/BugInstance.java:57-59 | a fresh report for the method, its declaring class and a one-line range |
| BugInstances.EqualsIsEquivalence | src/main/java/pascal/taie/analysis/bugfinder/BugInstance.java:78-85 | report equality is reflexive, symmetric and transitive |
| BugInstances.EqualsIffSameFields | src/main/java/pascal/taie/analysis/bugfinder/BugInstance.java:78-85 | reports are equal exactly when bug type, class, method, start and end agree; severity plays no part |
| BugInstances.NeverEqualsNull | src/main/java/pascal/taie/analysis/bugfinder/BugInstance.java:80 | a report never equals null |
| BugInstances.EqualReportsHaveEqualHashes | src/main/java/pascal/taie/analysis/bugfinder/BugInstance.java:88-90 | equal reports have equal hash codes |
| BugInstances.CompareToOrdersByStart | src/main/java/pascal/taie/analysis/bugfinder/BugInstance.java:93-95 | `compareTo` is zero or negative exactly as the start lines are equal or smaller; it is antisymmetric and transitive |

Three client methods prove, from the contracts alone, concrete scenarios:
- `BugInstances.CompareToIgnoresOtherFields`: `compareTo` is coarser than `equals`.
- `BugInstances.LineRangeScenario`: the rendered range reads "empty", then "12", then "12---15".
- The `BitSets.*Scenario` methods: the assertions of each unit test.

## Left out

- Timers, console output, verbose tracing, the `Options` pre-build branch and the analysis monitor's callbacks are not modelled. They are I/O or notification and do not affect the tables.
- `ProgramManager`, `CSManager`, `HeapModel`, `ContextSelector`, `OnFlyCallGraph`, `PointerFlowGraph`, `WorkList` and `PointsToSet` are not part of this model. They appear only through what the solver uses:
  - uninterpreted functions of `Program`;
  - the maps, sets and sequences of `Tables`.
- `PointerFlowGraph.addEdge` is not part of this model. The model's graph treats an edge as present only when one with the same source, target, filter and kind exists, so each cast gets its own edge. The Findings row rests on an assumption about `addEdge`: that it treats an edge with the same source, target and kind as present, whatever its filter.
- The call graph is a set of `PtaProgram.CallEdge` values, so a call edge is deduplicated by its kind, context-sensitive call site and context-sensitive callee. This is an assumption about `OnFlyCallGraph` and `bamboo.callgraph.Edge`, which are not part of this model.
- The main-argument seeding depends on `Environment`, which is not part of this model. It is modelled as the two `addPointsTo` calls on the abstract objects `mainArgs` and `mainArgsElem`.
- Iteration over a points-to set follows `HashSet` order in the source. The model's loops choose members in an unspecified order, so no result depends on the order.
- PtaSolver.Solver.AddPFGEdge: the replay enqueues a snapshot of the source's set. The source enqueues the live set object, which may still grow before the entry is polled. Objects that reach the source later are still sent along the edge, by propagation, so only the queue contents at a given moment differ.
- PtaSolver.Solver.Solve: runs under a fuel bound and may stop with `OutOfFuel`. Contexts are uninterpreted, so the set of pointers is not finite and termination of the outer loop is not proved. The class-initialization recursion is proved to terminate.
- PtaSolver.Solver.Analyze: the converse direction, that every fact in the tables is derivable from the program (precision), is not proved. Only soundness of the fixpoint is stated.
- PtaSolver.Solver.Analyze: an aborted run does not specify the partial state it leaves. The source throws at that point and abandons the tables.
- PtaSolver.Solver.RunClassInitializer: marking the class before its initializer is processed is present in the code. The contract states only the result (the class is marked, and its initializer is reachable), not the order of these steps.
- The `AnalysisException` of `resolveCallee`, and the `NoSuchElementException` of `optParam.get()` for an argument without a parameter, are modelled as `Fail` outcomes that stop the run.
- PtaSolver.Solver.Reset: also empties the points-to sets, which `initialize` (PointerAnalysisImpl.java:191-196) leaves to `csManager`. The model assumes one `analyze` per `CSManager`; a second run in the source would start with the first run's sets, whose re-delivered objects give empty deltas.
- PtaSolver.Solver.ConnectRules: states which rules are closed and what is kept, not the exact new tables; each `ConnectRule` it calls does state them.
- PtaSolver.Solver.ApplyRules: states the failure condition and the invariant, not the exact new tables; its `ConnectRules` and `ProcessCall` steps state what they add.
- PtaSolver.Solver.ProcessPointerEntry: states the new points-to sets exactly and that reachability is unchanged, but not the flow edges and queue entries that the rules it applies add.
- PtaSolver.Solver.ProcessCallEdge: for a new edge, the flow edges, queue entries and initialized classes added while its callee is processed are bounded from below only (as for `ProcessNewCSMethod`); the wiring edges inserted after that are exact, and reachability is bounded above by `ReachedOnly`.
- PtaSolver.Solver.ProcessNewCSMethod: states a lower bound only for the flow edges, queue entries and initialized classes (what the method's statements and initializations require); the points-to sets and call graph are unchanged and reachability is bounded above by `ReachedOnly`.
- PtaSolver.Solver.ProcessNewMethod: states a lower bound only for the flow edges, queue entries and initialized classes; reachability is bounded above by `ReachedOnly`.
- PtaSolver.Solver.VisitForInit: states a lower bound only for the initialized classes and for the flow edges and queue entries of the initializers it runs; reachability is bounded above by `ReachedOnly`.
- PtaSolver.Solver.VisitAllocation: states a lower bound only, as `VisitForInit`.
- PtaSolver.Solver.VisitAllocatedType: states a lower bound only, as `VisitForInit`.
- PtaSolver.Solver.InitializeClass: on a first initialization, states a lower bound only for the initialized classes (the class and its superclasses) and for the flow edges and queue entries of their initializers; reachability is bounded above by `ReachedOnly`.
- PtaSolver.Solver.RunClassInitializer: states a lower bound only, as `InitializeClass`.
- PtaSolver.Solver.ProcessEntry: states a lower bound only for the flow edges, queue entries and initialized classes; the entry methods are exact and reachability is bounded above by `ReachedOnly`.
- PtaSolver.Solver.ProcessEntries: states a lower bound only, as `ProcessEntry`.
- PtaSolver.Solver.Initialize: states a lower bound only for the flow edges, queue entries and initialized classes; the entry methods are exact, and every reachable method is an entry or the initializer of an initialized class.
- PtaSolver.Solver.DrainPointerEntries: states the invariants and the emptied queue, not the exact new tables.
- PtaSolver.Solver.DrainCallEntries: states the invariants and the emptied queue, not the exact new tables.
- `BitSet` itself is not part of this model. Only the behaviour its unit tests assert is modelled, as a class over `set<nat>`, and the `toString` printing in the tests is left out.
- BitSets.BitSet.Set: the index is a `nat`, and members are `nat`s everywhere, so the `IndexOutOfBoundsException` that `java.util.BitSet` throws for a negative index is not modelled. `SetTo` and `Contains` take another `BitSet` and have no index.
- BugInstances.BugInstance.SetClass, BugInstances.BugInstance.SetMethod, BugInstances.BugInstance.SetClassAndMethod: take a class or method value, so `setClass(null)`, `setMethod(null)` and `setClassAndMethod(null)` (which would throw) are not modelled.
- `BugInstance.toString`: only the line-range part is modelled. The rest is `String.format` over the foreign `toString` of classes, methods, bug types and severities. The getters are plain field reads and have no rows of their own.
- `Edge.toString` is not modelled; it is printing only.
- Zipper.java, CallGraphPrinter.java, UnwrappedEdge.java, EdgeTransferTest.java and CSMethod.java are not part of this model. CSMethod appears only as the datatype `CSMethod`.

## Findings

| source | as written | input that shows it | evidently intended | confidence | as-written member | corrected member |
|---|---|---|---|---|---|---|
| src/main/java/bamboo/pta/core/solver/PointerAnalysisImpl.java:317-326 | `addPFGEdge` relies on `addEdge`, which is not part of this model and is assumed to treat an edge with the same source, target and kind as present, whatever its filter; under that assumption the edge of a second cast between the same variables is dropped | `b = (T1) a; b = (T2) a` with `a` pointing to an object of type `T2` only: the second cast's edge is dropped, so the object never reaches `b` | every cast delivers each source object its type admits | not executed | PtaState.WithEdgeByKind, PtaFacts.SecondCastDroppedByKindKey | PtaState.WithEdge, PtaFacts.SecondCastKeptByFilterKey, PtaFacts.FixpointIsClosed |
