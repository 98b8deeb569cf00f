/**
 * The worklist solver of bamboo.pta.core.solver.PointerAnalysisImpl: its tables are the fields of
 * a `Solver`, and each of its operations is a method that updates them in place.
 */
module PtaSolver {
  import opened Wrappers
  import opened CallGraphEdge
  import opened PtaProgram
  import opened PtaState
  import opened PtaFacts
  import opened PtaSteps

  /** How a run of the solver ends. */
  datatype SolveOutcome = Fixpoint | OutOfFuel | Aborted(error: AnalysisError)

  class Solver {
    const prog: Program
    var pts: map<Pointer, set<CSObj>>
    var pfg: map<Pointer, seq<PFGEdge>>
    var callGraph: set<CallEdge>
    var entryMethods: set<CSMethod>
    var reachableCSMethods: set<CSMethod>
    var reachableMethods: set<Method>
    var initializedClasses: set<Type>
    var pointerEntries: seq<Entry>
    var callEntries: seq<CallEdge>

    /** The tables as one value. */
    function State(): Tables
      reads this
    {
      Tables(pts, pfg, callGraph, entryMethods, reachableCSMethods, reachableMethods,
             initializedClasses, pointerEntries, callEntries)
    }

    /** The classes not yet initialized and the methods not yet reached: what recursion consumes. */
    ghost function Unreached(): (set<Type>, set<Method>)
      reads this
    {
      (prog.classes.Keys - initializedClasses, prog.methods.Keys - reachableMethods)
    }

    constructor (p: Program)
      ensures prog == p
      ensures State() == EmptyTables()
    {
      prog := p;
      pts, pfg, callGraph, entryMethods := map[], map[], {}, {};
      reachableCSMethods, reachableMethods, initializedClasses := {}, {}, {};
      pointerEntries, callEntries := [], [];
    }

    // ------------------------------------------------------------ work-list and points-to seeding

    /** `addPointerEntry`: queues `objs` for delivery to `x`. */
    method AddPointerEntry(x: Pointer, objs: set<CSObj>)
      modifies this
      ensures State() == old(State()).(pointerEntries := old(pointerEntries) + [Entry(x, objs)])
    {
      pointerEntries := pointerEntries + [Entry(x, objs)];
    }

    /** `workList.addCallEdge`. */
    method AddCallEntry(e: CallEdge)
      modifies this
      ensures State() == old(State()).(callEntries := old(callEntries) + [e])
    {
      callEntries := callEntries + [e];
    }

    /** `addPointsTo(context, var, pts)`. */
    method AddPointsToSet(c: Context, v: Variable, objs: set<CSObj>)
      modifies this
      ensures State() == old(State()).(pointerEntries := old(pointerEntries) + [Entry(CSVariable(c, v), objs)])
    {
      AddPointerEntry(CSVariable(c, v), objs);
    }

    /** `addPointsTo(context, var, heapContext, obj)`: seeds a variable with one object. */
    method AddVarPointsTo(c: Context, v: Variable, heapContext: Context, obj: Obj)
      modifies this
      ensures State() == old(State()).(pointerEntries :=
        old(pointerEntries) + [Entry(CSVariable(c, v), {CSObj(heapContext, obj)})])
    {
      AddPointsToSet(c, v, {CSObj(heapContext, obj)});
    }

    /** `addPointsTo(arrayContext, array, heapContext, obj)`: seeds an array's elements with one object. */
    method AddArrayPointsTo(arrayContext: Context, arrayObj: Obj, heapContext: Context, obj: Obj)
      modifies this
      ensures State() == old(State()).(pointerEntries :=
        old(pointerEntries) + [Entry(ArrayIndex(CSObj(arrayContext, arrayObj)), {CSObj(heapContext, obj)})])
    {
      AddPointerEntry(ArrayIndex(CSObj(arrayContext, arrayObj)), {CSObj(heapContext, obj)});
    }

    // ------------------------------------------------------------ propagation and edges

    /**
     * `propagate`: adds `s` to the set of `x` one object at a time, collecting the new ones in
     * `diff`, and when `diff` is not empty sends it, filtered per edge, along every out-edge.
     */
    method Propagate(x: Pointer, s: set<CSObj>) returns (diff: set<CSObj>)
      modifies this
      ensures diff == s - PointsTo(old(State()), x)
      ensures State() == Propagated(prog, old(State()), x, s)
    {
      ghost var before := PointsTo(State(), x);
      if x !in pts {
        pts := pts[x := {}];
      }
      assert pts == old(pts)[x := before];
      diff := {};
      var rest := s;
      while rest != {}
        invariant rest <= s
        invariant x in pts && pts == old(pts)[x := pts[x]] && pts[x] == before + (s - rest)
        invariant diff == (s - rest) - before
        invariant pfg == old(pfg) && pointerEntries == old(pointerEntries) && callEntries == old(callEntries)
        invariant SameReach(old(State()), State())
        decreases rest
      {
        var o :| o in rest;
        if o !in pts[x] {
          pts := pts[x := pts[x] + {o}];
          diff := diff + {o};
        }
        rest := rest - {o};
      }
      assert pts[x] == before + s;
      if diff != {} {
        var edges := OutEdges(State(), x);
        var i := 0;
        while i < |edges|
          invariant 0 <= i <= |edges|
          invariant pts == old(pts)[x := before + s] && pfg == old(pfg) && callEntries == old(callEntries)
          invariant SameReach(old(State()), State())
          invariant pointerEntries == old(pointerEntries) + OutEntries(prog, edges, diff)[..i]
          decreases |edges| - i
        {
          var to := edges[i].to;
          AddPointerEntry(to, Filtered(prog, diff, edges[i].filter));
          assert OutEntries(prog, edges, diff)[..i + 1] == OutEntries(prog, edges, diff)[..i] + [OutEntries(prog, edges, diff)[i]];
          i := i + 1;
        }
        assert OutEntries(prog, edges, diff)[..i] == OutEntries(prog, edges, diff);
      }
    }

    /**
     * `addPFGEdge`: the graph keeps one edge per (from, to, filter, kind); a new edge replays the
     * current set of `from`, through its filter, to `to` when that set is not empty.
     */
    method AddPFGEdge(from: Pointer, to: Pointer, filter: Option<Type>, kind: FlowKind)
      modifies this
      ensures State() == WithEdge(prog, old(State()), from, to, filter, kind)
    {
      var added := !HasEdge(State(), from, to, filter, kind);
      if added {
        pfg := pfg[from := OutEdges(State(), from) + [PFGEdge(to, kind, filter)]];
        var fromSet := Filtered(prog, if from in pts then pts[from] else {}, filter);
        if fromSet != {} {
          AddPointerEntry(to, fromSet);
        }
      }
    }

    /** Inserts an edge of the right shape, keeping the invariant; the tables only grow. */
    method Connect(from: Pointer, to: Pointer, filter: Option<Type>, kind: FlowKind,
                   ghost v: Pointer, ghost d: set<CSObj>, ghost open: set<Rule>)
      requires EdgeShape(prog, PFGEdge(to, kind, filter))
      requires InvariantExcept(prog, State(), v, d, open)
      modifies this
      ensures State() == WithEdge(prog, old(State()), from, to, filter, kind)
      ensures InvariantExcept(prog, State(), v, d, open)
      ensures Grows(old(State()), State()) && HasEdge(State(), from, to, filter, kind)
      ensures pts == old(pts) && callEntries == old(callEntries) && SameReach(old(State()), State())
    {
      ghost var t0 := State();
      AddPFGEdge(from, to, filter, kind);
      WithEdgeKeepsInvariant(prog, t0, from, to, filter, kind, v, d, open);
      WithEdgeGrows(prog, t0, from, to, filter, kind);
      WithEdgeHasEdge(prog, t0, from, to, filter, kind);
    }

    /** One more edge of a run of insertions started at `t0`: the tables become those of the longer run. */
    method ConnectNext(q: EdgeRequest, ghost t0: Tables, ghost reqs: seq<EdgeRequest>,
                       ghost v: Pointer, ghost d: set<CSObj>, ghost open: set<Rule>)
      requires EdgeShape(prog, PFGEdge(q.to, q.kind, q.filter))
      requires InvariantExcept(prog, State(), v, d, open) && State() == WithEdges(prog, t0, reqs)
      modifies this
      ensures InvariantExcept(prog, State(), v, d, open) && State() == WithEdges(prog, t0, reqs + [q])
    {
      Connect(q.from, q.to, q.filter, q.kind, v, d, open);
      WithEdgesSnoc(prog, t0, reqs, q);
    }

    // ------------------------------------------------------------ transfer rules driven by a delta

    /**
     * The inner loop of a structural rule: statement `k` of rule `r` on `v` against every object of
     * `d`, in the order `order` in which the set yields them; the edges are offered in that order.
     */
    method ConnectRuleStatement(r: Rule, v: Pointer, d: set<CSObj>, k: nat, ghost open: set<Rule>)
      returns (ghost order: seq<CSObj>)
      requires r != CallRule && v.CSVariable? && k < RuleCount(prog, r, v.variable)
      requires InvariantExcept(prog, State(), v, d, open)
      modifies this
      ensures Enumerates(order, d)
      ensures State() == WithEdges(prog, old(State()), RuleEdges(prog, r, v.context, v.variable, k, order))
      ensures InvariantExcept(prog, State(), v, d, open) && Grows(old(State()), State())
      ensures pts == old(pts) && callEntries == old(callEntries) && SameReach(old(State()), State())
      ensures forall o | o in d ::
        HasEdge(State(), RuleEdge(prog, r, v.context, v.variable, o, k).from, RuleEdge(prog, r, v.context, v.variable, o, k).to,
                RuleEdge(prog, r, v.context, v.variable, o, k).filter, RuleEdge(prog, r, v.context, v.variable, o, k).kind)
    {
      ghost var t0 := State();
      GrowsReflexive(t0);
      var c, x := v.context, v.variable;
      var rest := d;
      order := [];
      while rest != {}
        invariant rest <= d
        invariant InvariantExcept(prog, State(), v, d, open) && Grows(t0, State())
        invariant pts == t0.pts && callEntries == t0.callEntries && SameReach(t0, State())
        invariant Enumerates(order, d - rest)
        invariant State() == WithEdges(prog, t0, RuleEdges(prog, r, c, x, k, order))
        invariant forall o | o in d - rest ::
          HasEdge(State(), RuleEdge(prog, r, c, x, o, k).from, RuleEdge(prog, r, c, x, o, k).to,
                  RuleEdge(prog, r, c, x, o, k).filter, RuleEdge(prog, r, c, x, o, k).kind)
        decreases rest
      {
        var o :| o in rest;
        var e := RuleEdge(prog, r, c, x, o, k);
        ghost var before := State();
        Connect(e.from, e.to, e.filter, e.kind, v, d, open);
        GrowsTransitive(t0, before, State());
        forall o' | o' in d - rest
          ensures HasEdge(State(), RuleEdge(prog, r, c, x, o', k).from, RuleEdge(prog, r, c, x, o', k).to,
                          RuleEdge(prog, r, c, x, o', k).filter, RuleEdge(prog, r, c, x, o', k).kind)
        {
          var e' := RuleEdge(prog, r, c, x, o', k);
          HasEdgeGrows(before, State(), e'.from, e'.to, e'.filter, e'.kind);
        }
        RuleEdgesSnoc(prog, r, c, x, k, order, o);
        WithEdgesSnoc(prog, t0, RuleEdges(prog, r, c, x, k, order), e);
        EnumeratesSnoc(order, d, rest, o);
        order := order + [o];
        rest := rest - {o};
      }
      assert d - rest == d;
    }

    /**
     * `processInstanceStore`, `processInstanceLoad`, `processArrayStore` and `processArrayLoad`:
     * for every statement of rule `r` on the variable `v` and every object of the delta `d`,
     * inserts the edge `RuleEdge` names.
     */
    method ConnectRule(r: Rule, v: Pointer, d: set<CSObj>, ghost open: set<Rule>) returns (ghost orders: seq<seq<CSObj>>)
      requires r != CallRule && v.CSVariable? && r in open
      requires InvariantExcept(prog, State(), v, d, open)
      modifies this
      ensures |orders| == RuleCount(prog, r, v.variable) && forall k | 0 <= k < |orders| :: Enumerates(orders[k], d)
      ensures State() == WithEdges(prog, old(State()), AllRuleEdges(prog, r, v.context, v.variable, orders))
      ensures InvariantExcept(prog, State(), v, d, open - {r})
      ensures Grows(old(State()), State())
      ensures pts == old(pts) && callEntries == old(callEntries) && SameReach(old(State()), State())
      ensures RuleEdgesDone(prog, State(), r, v.context, v.variable, RuleCount(prog, r, v.variable), d)
    {
      ghost var t0 := State();
      GrowsReflexive(t0);
      var n := RuleCount(prog, r, v.variable);
      var k := 0;
      orders := [];
      while k < n
        invariant 0 <= k <= n
        invariant InvariantExcept(prog, State(), v, d, open) && Grows(t0, State())
        invariant pts == t0.pts && callEntries == t0.callEntries && SameReach(t0, State())
        invariant RuleEdgesDone(prog, State(), r, v.context, v.variable, k, d)
        invariant |orders| == k && forall j | 0 <= j < k :: Enumerates(orders[j], d)
        invariant State() == WithEdges(prog, t0, AllRuleEdges(prog, r, v.context, v.variable, orders))
      {
        ghost var before := State();
        ghost var order := ConnectRuleStatement(r, v, d, k, open);
        GrowsTransitive(t0, before, State());
        RuleEdgesDoneGrows(prog, before, State(), r, v.context, v.variable, k, d);
        RuleEdgesDoneExtend(prog, State(), r, v.context, v.variable, k, d);
        WithEdgesAppend(prog, t0, AllRuleEdges(prog, r, v.context, v.variable, orders),
                        RuleEdges(prog, r, v.context, v.variable, k, order));
        AllRuleEdgesSnoc(prog, r, v.context, v.variable, orders, order);
        orders := orders + [order];
        k := k + 1;
      }
      StructuralRuleCloses(prog, State(), r, v, d, open);
    }

    /**
     * The body of `processCall` for one call site and one receiver object: resolves the callee,
     * queues the call edge and seeds the callee's `this` with exactly that object.
     */
    method Dispatch(c: Context, cs: CallSite, o: CSObj, ghost v: Pointer, ghost d: set<CSObj>, ghost open: set<Rule>)
      returns (outcome: Outcome<AnalysisError>)
      requires InvariantExcept(prog, State(), v, d, open)
      modifies this
      ensures outcome.Fail? <==> !Dispatchable(cs)
      ensures outcome.Fail? ==> outcome.error == UnknownCallSite(cs) && State() == old(State())
      ensures outcome.Pass? ==>
        State() == Queued(old(State()), [DispatchEdge(prog, c, cs, o)], [ThisEntry(prog, DispatchEdge(prog, c, cs, o), o)])
      ensures outcome.Pass? ==>
        InvariantExcept(prog, State(), v, d, open) && Grows(old(State()), State()) && CallDone(prog, State(), c, cs, o)
    {
      var resolved := ResolveCallee(prog, o.obj, cs);
      if resolved.Failure? {
        return Fail(resolved.error);
      }
      var callee := resolved.value;
      var e := InstanceCallEdge(prog, c, cs, o, callee);
      var thisVar := CSVariable(e.callee.context, MethodOf(prog, callee).thisVar);
      ghost var t0 := State();
      AddCallEntry(e);
      PushCallKeepsInvariant(prog, t0, e, v, d, open);
      ghost var t1 := State();
      AddPointerEntry(thisVar, {o});
      PushKeepsInvariant(prog, t1, Entry(thisVar, {o}), v, d, open);
      GrowsTransitive(t0, t1, State());
      assert e in callEntries;
      outcome := Pass;
    }

    /**
     * The inner loop of `processCall`: one call site against every object of the delta, in the
     * order `order` in which the set yields them. For each object one call edge and one `this`
     * entry are queued; an unknown call kind fails on the first object, before anything is queued.
     */
    method ProcessCallSite(c: Context, cs: CallSite, d: set<CSObj>, ghost v: Pointer, ghost open: set<Rule>)
      returns (outcome: Outcome<AnalysisError>, ghost order: seq<CSObj>)
      requires InvariantExcept(prog, State(), v, d, open)
      modifies this
      ensures outcome.Fail? <==> d != {} && !Dispatchable(cs)
      ensures d == {} ==> order == []
      ensures outcome.Fail? ==> State() == old(State())
      ensures outcome.Pass? ==>
        Enumerates(order, d) && (Dispatchable(cs) || order == []) &&
        State() == Queued(old(State()), DispatchEdges(prog, c, cs, order), ThisEntries(prog, c, cs, order))
      ensures SameReach(old(State()), State())
      ensures outcome.Pass? ==>
        InvariantExcept(prog, State(), v, d, open) && Grows(old(State()), State()) &&
        pts == old(pts) && pfg == old(pfg)
      ensures outcome.Pass? ==> forall o | o in d :: CallDone(prog, State(), c, cs, o)
    {
      ghost var t0 := State();
      GrowsReflexive(t0);
      var rest := d;
      outcome := Pass;
      order := [];
      QueuedNothing(t0);
      while rest != {}
        invariant rest <= d
        invariant InvariantExcept(prog, State(), v, d, open) && Grows(t0, State())
        invariant pts == t0.pts && pfg == t0.pfg && SameReach(t0, State())
        invariant outcome.Pass? && (order == [] || Dispatchable(cs)) && (d == {} ==> order == [])
        invariant Enumerates(order, d - rest)
        invariant State() == Queued(t0, DispatchEdges(prog, c, cs, order), ThisEntries(prog, c, cs, order))
        invariant forall o | o in d - rest :: CallDone(prog, State(), c, cs, o)
        decreases rest
      {
        var o :| o in rest;
        ghost var before := State();
        outcome := Dispatch(c, cs, o, v, d, open);
        if outcome.Fail? {
          return;
        }
        GrowsTransitive(t0, before, State());
        forall o' | o' in d - rest ensures CallDone(prog, State(), c, cs, o') {
          CallDoneGrows(prog, before, State(), c, cs, o');
        }
        DispatchSnoc(prog, t0, c, cs, order, o);
        EnumeratesSnoc(order, d, rest, o);
        order := order + [o];
        rest := rest - {o};
      }
      assert d - rest == d;
    }

    /**
     * `processCall`: for every call on the receiver variable `v` and every object of the delta,
     * resolves the callee, queues the call edge and seeds the callee's `this` with that object.
     * An unknown call kind aborts the analysis.
     */
    method ProcessCall(v: Pointer, d: set<CSObj>, ghost open: set<Rule>)
      returns (outcome: Outcome<AnalysisError>, ghost orders: seq<seq<CSObj>>)
      requires v.CSVariable? && CallRule in open
      requires InvariantExcept(prog, State(), v, d, open)
      modifies this
      ensures outcome.Fail? <==>
        d != {} && exists cs | cs in VarOf(prog, v.variable).calls :: !Dispatchable(cs)
      ensures outcome.Pass? ==>
        DispatchableOrEmpty(VarOf(prog, v.variable).calls, orders) &&
        (forall k | 0 <= k < |orders| :: Enumerates(orders[k], d)) &&
        State() == Queued(old(State()), CallsDispatchEdges(prog, v.context, VarOf(prog, v.variable).calls, orders),
                          CallsThisEntries(prog, v.context, VarOf(prog, v.variable).calls, orders))
      ensures SameReach(old(State()), State())
      ensures outcome.Pass? ==>
        InvariantExcept(prog, State(), v, d, open - {CallRule}) && Grows(old(State()), State()) &&
        pts == old(pts) && pfg == old(pfg)
    {
      ghost var t0 := State();
      var c, x := v.context, v.variable;
      var calls := VarOf(prog, x).calls;
      var k := 0;
      outcome := Pass;
      orders := [];
      QueuedNothing(t0);
      while k < |calls|
        invariant 0 <= k <= |calls| && InvariantExcept(prog, State(), v, d, open)
        invariant outcome.Pass? && (d != {} ==> forall k' | 0 <= k' < k :: Dispatchable(calls[k']))
        invariant CallsDone(prog, State(), c, calls, k, d)
        invariant DispatchableOrEmpty(calls[..k], orders) && forall j | 0 <= j < k :: Enumerates(orders[j], d)
        invariant State() == Queued(t0, CallsDispatchEdges(prog, c, calls[..k], orders), CallsThisEntries(prog, c, calls[..k], orders))
      {
        ghost var before := State();
        ghost var order;
        outcome, order := ProcessCallSite(c, calls[k], d, v, open);
        if outcome.Fail? {
          assert calls[k] in calls;
          QueuedGrows(t0, CallsDispatchEdges(prog, c, calls[..k], orders), CallsThisEntries(prog, c, calls[..k], orders));
          return;
        }
        CallsDoneGrows(prog, before, State(), c, calls, k, d);
        CallsDoneExtend(prog, State(), c, calls, k, d);
        CallsDispatchSnoc(prog, t0, c, calls, orders, k, order);
        orders := orders + [order];
        k := k + 1;
      }
      assert calls[..k] == calls;
      CallLoopPassed(prog, t0, State(), v, d, open, orders);
    }

    // ------------------------------------------------------------ statements of new methods

    /**
     * `StatementProcessor`: the statements of a newly reachable method `m`, under its context.
     * An allocation seeds its variable with the context-qualified heap object, assignments, casts
     * and static field accesses insert their edges, and a static call queues its call edge.
     */
    method ProcessStatement(m: CSMethod, s: Stmt)
      requires Invariant(prog, State())
      modifies this
      ensures State() == StmtEffect(prog, old(State()), m, s)
      ensures Invariant(prog, State()) && Grows(old(State()), State())
      ensures pts == old(pts) && SameReach(old(State()), State())
      ensures StmtDone(prog, State(), m, s)
    {
      var c := m.context;
      ghost var t0 := State();
      match s {
      case Allocation(v, _) =>
        var obj := prog.heapObj(s);
        var heapContext := prog.selectHeapContext(m, obj);
        AddVarPointsTo(c, v, heapContext, obj);
        PushKeepsInvariant(prog, t0, Entry(CSVariable(c, v), {CSObj(heapContext, obj)}), StaticField(0), {}, {});
      case Assign(to, from) =>
        Connect(CSVariable(c, from), CSVariable(c, to), None, LocalAssignEdge, StaticField(0), {}, {});
      case AssignCast(to, from, castType) =>
        Connect(CSVariable(c, from), CSVariable(c, to), Some(castType), CastEdge, StaticField(0), {}, {});
      case StaticLoad(to, f) =>
        Connect(StaticField(f), CSVariable(c, to), None, StaticLoadEdge, StaticField(0), {}, {});
      case StaticStore(f, from) =>
        Connect(CSVariable(c, from), StaticField(f), None, StaticStoreEdge, StaticField(0), {}, {});
      case Call(cs) =>
        if cs.kind.Static? {
          var e := StaticCallEdge(prog, m, cs);
          AddCallEntry(e);
          PushCallKeepsInvariant(prog, t0, e, StaticField(0), {}, {});
        }
      case InstanceLoad(_, _, _) =>
      case InstanceStore(_, _, _) =>
      case ArrayLoad(_, _) =>
      case ArrayStore(_, _) =>
      }
      StmtEffectGrows(prog, t0, m, s, State());
      StmtEffectDone(prog, t0, m, s, State());
    }

    /** The statements of `m`, in order, through `ProcessStatement`. */
    method ProcessStatements(m: CSMethod)
      requires Invariant(prog, State())
      modifies this
      ensures State() == StmtsEffect(prog, old(State()), m, MethodOf(prog, m.meth).statements)
      ensures Invariant(prog, State()) && Grows(old(State()), State())
      ensures pts == old(pts) && SameReach(old(State()), State())
      ensures forall s | s in MethodOf(prog, m.meth).statements :: StmtDone(prog, State(), m, s)
    {
      ghost var t0 := State();
      var stmts := MethodOf(prog, m.meth).statements;
      var i := 0;
      while i < |stmts|
        invariant 0 <= i <= |stmts| && Invariant(prog, State())
        invariant State() == StmtsEffect(prog, t0, m, stmts[..i])
      {
        ghost var before := State();
        ProcessStatement(m, stmts[i]);
        StmtsEffectSnoc(prog, t0, m, stmts, i, before, State());
        i := i + 1;
      }
      assert stmts[..i] == stmts;
      StmtsEffectGrows(prog, t0, m, stmts, State());
      StmtsEffectDone(prog, t0, m, stmts, State());
      forall s | s in stmts ensures StmtDone(prog, State(), m, s) {
        var j :| 0 <= j < |stmts| && stmts[j] == s;
      }
    }

    // ------------------------------------------------------------ reachability and class initialization

    /**
     * `processNewCSMethod`: a context-sensitive method reached for the first time is recorded,
     * its method is processed for class initialization, and its statements are processed.
     */
    method ProcessNewCSMethod(m: CSMethod)
      requires WellFormed(prog) && Invariant(prog, State())
      modifies this
      decreases Unreached().0, Unreached().1, 2, 0
      ensures Invariant(prog, State()) && Grows(old(State()), State()) && NewlyDone(prog, old(State()), State())
      ensures pts == old(pts) && callGraph == old(callGraph) && entryMethods == old(entryMethods)
      ensures m in reachableCSMethods
      ensures m in old(reachableCSMethods) ==> State() == old(State())
      ensures ReachedOnly(prog, old(State()), State(), {m}, {m.meth})
    {
      if m in reachableCSMethods {
        GrowsReflexive(State());
        return;
      }
      ghost var t0 := State();
      reachableCSMethods := reachableCSMethods + {m};
      ghost var t1 := State();
      ReachOnlyKeepsInvariant(prog, t0, t1);
      ProcessNewMethod(m.meth);
      ghost var t2 := State();
      ProcessStatements(m);
      GrowsTransitive(t1, t2, State());
      NewlyDoneChain(prog, t1, t2, State());
      NewlyDoneAfterMark(prog, t0, t1, State());
      GrowsTransitive(t0, t1, State());
      ReachedOnlyChain(prog, t1, t2, State(), {}, {m.meth}, {}, {}, {}, {m.meth});
      ReachedOnlyChain(prog, t0, t1, State(), {m}, {}, {}, {m.meth}, {m}, {m.meth});
    }

    /**
     * `processNewMethod`: a method reached for the first time in any context is recorded, and
     * each of its statements triggers the class initializations it calls for.
     */
    method ProcessNewMethod(meth: Method)
      requires WellFormed(prog) && Invariant(prog, State())
      modifies this
      decreases Unreached().0, Unreached().1, 1, 0
      ensures Invariant(prog, State()) && Grows(old(State()), State()) && NewlyDone(prog, old(State()), State())
      ensures pts == old(pts) && callGraph == old(callGraph) && entryMethods == old(entryMethods)
      ensures meth in reachableMethods
      ensures meth in old(reachableMethods) ==> State() == old(State())
      ensures ReachedOnly(prog, old(State()), State(), {}, {meth})
    {
      if meth in reachableMethods {
        GrowsReflexive(State());
        return;
      }
      ghost var t0 := State();
      reachableMethods := reachableMethods + {meth};
      ghost var t1 := State();
      ReachOnlyKeepsInvariant(prog, t0, t1);
      GrowsReflexive(t1);
      var stmts := MethodOf(prog, meth).statements;
      var i := 0;
      while i < |stmts|
        invariant 0 <= i <= |stmts|
        invariant Invariant(prog, State()) && Grows(t1, State()) && NewlyDone(prog, t1, State())
        invariant pts == t0.pts && callGraph == t0.callGraph && entryMethods == t0.entryMethods
        invariant TriggersDone(prog, initializedClasses, stmts, i)
        invariant ReachedOnly(prog, t1, State(), {}, {})
      {
        assert meth in prog.methods;
        assert Unreached().0 <= old(Unreached().0) && Unreached().1 < old(Unreached().1);
        ghost var before := State();
        VisitForInit(stmts[i]);
        GrowsTransitive(t1, before, State());
        NewlyDoneChain(prog, t1, before, State());
        ReachedOnlyChain(prog, t1, before, State(), {}, {}, {}, {}, {}, {});
        TriggersDoneGrows(prog, before.initializedClasses, initializedClasses, stmts, i);
        TriggersDoneExtend(prog, initializedClasses, stmts, i);
        i := i + 1;
      }
      TriggersDoneMethod(prog, State(), meth);
      NewlyDoneAfterMark(prog, t0, t1, State());
      GrowsTransitive(t0, t1, State());
      ReachedOnlyChain(prog, t0, t1, State(), {}, {meth}, {}, {}, {}, {meth});
    }

    /**
     * `ClassInitializer.visit`: an allocation initializes the class a class object stands for,
     * then the class allocated or the base type of the array allocated; a static call initializes
     * the class of its target; a static field access the class declaring the field.
     */
    method VisitForInit(s: Stmt)
      requires WellFormed(prog) && Invariant(prog, State())
      modifies this
      decreases Unreached().0, Unreached().1, 5, 0
      ensures Invariant(prog, State()) && Grows(old(State()), State()) && NewlyDone(prog, old(State()), State())
      ensures pts == old(pts) && callGraph == old(callGraph) && entryMethods == old(entryMethods)
      ensures forall c | c in InitTriggers(prog, s) :: ClassInitDone(prog, initializedClasses, c)
      ensures ReachedOnly(prog, old(State()), State(), {}, {})
    {
      match s
      case Allocation(_, site) =>
        VisitAllocation(site);
      case Call(cs) =>
        if cs.kind.Static? {
          InitializeClass(MethodOf(prog, cs.target).classType);
        } else {
          GrowsReflexive(State());
        }
      case StaticLoad(_, f) =>
        InitializeClass(prog.fieldClass(f));
      case StaticStore(f, _) =>
        InitializeClass(prog.fieldClass(f));
      case Assign(_, _) => GrowsReflexive(State());
      case AssignCast(_, _, _) => GrowsReflexive(State());
      case InstanceLoad(_, _, _) => GrowsReflexive(State());
      case InstanceStore(_, _, _) => GrowsReflexive(State());
      case ArrayLoad(_, _) => GrowsReflexive(State());
      case ArrayStore(_, _) => GrowsReflexive(State());
    }

    /** `ClassInitializer.visit` of an allocation of the abstract object `site`. */
    method VisitAllocation(site: Obj)
      requires WellFormed(prog) && Invariant(prog, State())
      modifies this
      decreases Unreached().0, Unreached().1, 4, 1
      ensures Invariant(prog, State()) && Grows(old(State()), State()) && NewlyDone(prog, old(State()), State())
      ensures pts == old(pts) && callGraph == old(callGraph) && entryMethods == old(entryMethods)
      ensures forall c | c in InitTriggers(prog, Allocation(0, site)) :: ClassInitDone(prog, initializedClasses, c)
      ensures ReachedOnly(prog, old(State()), State(), {}, {})
    {
      ghost var t0 := State();
      var info := prog.objInfo(site);
      if info.classObjectOf.Some? {
        InitializeClass(info.classObjectOf.value);
      } else {
        GrowsReflexive(t0);
      }
      ghost var t1 := State();
      VisitAllocatedType(info.objType);
      GrowsTransitive(t0, t1, State());
      NewlyDoneChain(prog, t0, t1, State());
      ReachedOnlyChain(prog, t0, t1, State(), {}, {}, {}, {}, {}, {});
      if info.classObjectOf.Some? {
        ClassInitDoneGrows(prog, t1.initializedClasses, initializedClasses, info.classObjectOf.value);
      }
    }

    /** The class an allocation of type `ty` initializes: the class itself, or an array's base type. */
    method VisitAllocatedType(ty: Type)
      requires WellFormed(prog) && Invariant(prog, State())
      modifies this
      decreases Unreached().0, Unreached().1, 4, 0
      ensures Invariant(prog, State()) && Grows(old(State()), State()) && NewlyDone(prog, old(State()), State())
      ensures pts == old(pts) && callGraph == old(callGraph) && entryMethods == old(entryMethods)
      ensures prog.typeKind(ty).ClassType? ==> ClassInitDone(prog, initializedClasses, ty)
      ensures prog.typeKind(ty).ArrayType? ==> ClassInitDone(prog, initializedClasses, prog.typeKind(ty).baseType)
      ensures ReachedOnly(prog, old(State()), State(), {}, {})
    {
      match prog.typeKind(ty) {
        case ClassType =>
          InitializeClass(ty);
        case ArrayType(base) =>
          InitializeClass(base);
        case OtherType =>
          GrowsReflexive(State());
      }
    }

    /**
     * `ClassInitializer.initializeClass`: a class not yet initialized has its superclass
     * initialized first; a class with an initializer is then marked, before its initializer is
     * processed as a new method under the default context, so a re-entrant trigger stops there.
     */
    method InitializeClass(cls: Type)
      requires WellFormed(prog) && Invariant(prog, State())
      modifies this
      decreases Unreached().0, Unreached().1, 3, Depth(prog, cls)
      ensures Invariant(prog, State()) && Grows(old(State()), State()) && NewlyDone(prog, old(State()), State())
      ensures pts == old(pts) && callGraph == old(callGraph) && entryMethods == old(entryMethods)
      ensures ClassInitDone(prog, initializedClasses, cls)
      ensures cls in old(initializedClasses) ==> State() == old(State())
      ensures ReachedOnly(prog, old(State()), State(), {}, {})
    {
      if cls in initializedClasses {
        GrowsReflexive(State());
        return;
      }
      ghost var t0 := State();
      GrowsReflexive(t0);
      var sup := SuperClass(prog, cls);
      if sup.Some? {
        InitializeClass(sup.value);
      }
      ghost var t1 := State();
      var clinit := ClassInitializer(prog, cls);
      if clinit.Some? {
        RunClassInitializer(cls, clinit.value);
        NewlyDoneChain(prog, t0, t1, State());
        GrowsTransitive(t0, t1, State());
        ghost var root := CSMethod(prog.defaultContext, clinit.value);
        ReachedOnlyChain(prog, t0, t1, State(), {}, {}, {root}, {clinit.value}, {} + {root}, {} + {clinit.value});
        ReachedOnlyClinit(prog, t0, State(), cls, clinit.value, {}, {});
      }
    }

    /**
     * The part of `initializeClass` after the superclass: the class `cls`, whose initializer is
     * `clinit`, is marked, and then its initializer is processed under the default context.
     */
    method RunClassInitializer(cls: Type, clinit: Method)
      requires WellFormed(prog) && Invariant(prog, State())
      requires ClassInitializer(prog, cls) == Some(clinit)
      requires SuperClass(prog, cls).Some? ==> ClassInitDone(prog, initializedClasses, SuperClass(prog, cls).value)
      modifies this
      decreases Unreached().0, Unreached().1, 2, 1
      ensures Invariant(prog, State()) && Grows(old(State()), State()) && NewlyDone(prog, old(State()), State())
      ensures pts == old(pts) && callGraph == old(callGraph) && entryMethods == old(entryMethods)
      ensures ClassInitDone(prog, initializedClasses, cls)
      ensures ReachedOnly(prog, old(State()), State(), {CSMethod(prog.defaultContext, clinit)}, {clinit})
    {
      ghost var t1 := State();
      var sup := SuperClass(prog, cls);
      initializedClasses := initializedClasses + {cls};
      ghost var t2 := State();
      if sup.Some? {
        ClassInitDoneGrows(prog, t1.initializedClasses, initializedClasses, sup.value);
      }
      MarkKeepsInvariant(prog, t1, cls);
      ProcessNewCSMethod(CSMethod(prog.defaultContext, clinit));
      GrowsTransitive(t1, t2, State());
      ReachedOnlyChain(prog, t1, t2, State(), {}, {}, {CSMethod(prog.defaultContext, clinit)}, {clinit},
                       {CSMethod(prog.defaultContext, clinit)}, {clinit});
      NewlyDoneAfterMark(prog, t1, t2, State());
      ClassInitDoneGrows(prog, t2.initializedClasses, initializedClasses, cls);
    }

    // ------------------------------------------------------------ call edges

    /**
     * The argument loop of `processCallEdge`: each present argument, in order, flows into the
     * callee's parameter of the same index; the first one without such a parameter aborts.
     */
    method PassArguments(callerContext: Context, cs: CallSite, callee: CSMethod) returns (outcome: Outcome<AnalysisError>)
      requires Invariant(prog, State())
      modifies this
      ensures outcome.Fail? <==> exists i | 0 <= i < |cs.args| :: MissingParameterAt(cs, MethodOf(prog, callee.meth), i)
      ensures outcome.Fail? ==>
        outcome.error.MissingParameter? && outcome.error.callee == callee.meth &&
        MissingParameterAt(cs, MethodOf(prog, callee.meth), outcome.error.index) &&
        forall j | 0 <= j < outcome.error.index :: !MissingParameterAt(cs, MethodOf(prog, callee.meth), j)
      ensures State() == WithEdges(prog, old(State()),
        ArgEdges(prog, callerContext, cs, callee, if outcome.Pass? then |cs.args| else outcome.error.index))
      ensures SameReach(old(State()), State()) && pts == old(pts)
      ensures outcome.Pass? ==> Invariant(prog, State()) && Grows(old(State()), State())
      ensures outcome.Pass? ==> ArgsPassed(prog, State(), callerContext, cs, callee, |cs.args|)
    {
      ghost var t0 := State();
      var info := MethodOf(prog, callee.meth);
      var i := 0;
      ghost var reqs := [];
      while i < |cs.args|
        invariant 0 <= i <= |cs.args| && InvariantExcept(prog, State(), StaticField(0), {}, {})
        invariant forall j | 0 <= j < i :: !MissingParameterAt(cs, info, j)
        invariant reqs == ArgEdges(prog, callerContext, cs, callee, i) && State() == WithEdges(prog, t0, reqs)
      {
        ArgEdgesNext(prog, callerContext, cs, callee, i);
        if cs.args[i].Some? {
          var param := Param(info, i);
          if param.None? {
            ArgEdgesFailAt(prog, t0, State(), callerContext, cs, callee, i);
            return Fail(MissingParameter(callee.meth, i));
          }
          var q := EdgeRequest(CSVariable(callerContext, cs.args[i].value), CSVariable(callee.context, param.value), None,
                               ParameterPassingEdge);
          ConnectNext(q, t0, reqs, StaticField(0), {}, {});
          reqs := reqs + [q];
        }
        i := i + 1;
      }
      outcome := Pass;
      ArgEdgesPassAll(prog, t0, State(), callerContext, cs, callee);
    }

    /** The result part of `processCallEdge`: each return variable of the callee flows into the left-hand side. */
    method PassResults(callerContext: Context, cs: CallSite, callee: CSMethod)
      requires Invariant(prog, State())
      modifies this
      ensures State() == WithEdges(prog, old(State()), ResultEdges(prog, callerContext, cs, callee))
      ensures Invariant(prog, State()) && Grows(old(State()), State()) && SameReach(old(State()), State()) && pts == old(pts)
      ensures cs.lhs.Some? ==> forall r | r in MethodOf(prog, callee.meth).returnVars ::
        HasEdge(State(), CSVariable(callee.context, r), CSVariable(callerContext, cs.lhs.value), None, ReturnEdge)
    {
      if cs.lhs.Some? {
        var rets := MethodOf(prog, callee.meth).returnVars;
        var lhs := CSVariable(callerContext, cs.lhs.value);
        PassReturnVars(callee.context, rets, lhs);
        ResultsPassedAll(State(), callee.context, rets, lhs);
      } else {
        GrowsReflexive(State());
      }
    }

    /** The loop of `PassResults` over the return variables `rets`. */
    method PassReturnVars(calleeContext: Context, rets: seq<Variable>, lhs: Pointer)
      requires Invariant(prog, State())
      modifies this
      ensures State() == WithEdges(prog, old(State()), ReturnEdges(calleeContext, rets, lhs))
      ensures Invariant(prog, State()) && Grows(old(State()), State()) && SameReach(old(State()), State()) && pts == old(pts)
      ensures ResultsPassed(State(), calleeContext, rets, lhs, |rets|)
    {
      ghost var t0 := State();
      var k := 0;
      ghost var reqs := [];
      while k < |rets|
        invariant 0 <= k <= |rets| && Invariant(prog, State())
        invariant reqs == ReturnEdges(calleeContext, rets[..k], lhs) && State() == WithEdges(prog, t0, reqs)
      {
        var q := EdgeRequest(CSVariable(calleeContext, rets[k]), lhs, None, ReturnEdge);
        ConnectNext(q, t0, reqs, StaticField(0), {}, {});
        ReturnEdgesSnoc(calleeContext, rets, lhs, k);
        reqs := reqs + [q];
        k := k + 1;
      }
      assert rets[..k] == rets;
      WithEdgesInstalls(prog, t0, reqs, State());
      forall j | 0 <= j < |rets| ensures HasEdge(State(), CSVariable(calleeContext, rets[j]), lhs, None, ReturnEdge) {
        assert reqs[j] in reqs;
      }
    }

    /**
     * `processCallEdge`: an edge not yet in the call graph is added, its callee is processed as a
     * new context-sensitive method, each present argument flows into its parameter, and, when the
     * call has a left-hand side, each return variable flows into it. A present argument without a
     * matching parameter aborts the analysis.
     */
    method ProcessCallEdge(e: CallEdge) returns (outcome: Outcome<AnalysisError>, ghost mid: Tables)
      requires WellFormed(prog)
      requires Invariant(prog, State().(callEntries := [e] + callEntries))
      requires Reached(prog, State().(callEntries := [e] + callEntries))
      modifies this
      ensures outcome.Fail? <==>
        e !in old(callGraph) &&
        exists i | 0 <= i < |e.callSite.callSite.args| ::
          MissingParameterAt(e.callSite.callSite, MethodOf(prog, e.callee.meth), i)
      ensures outcome.Fail? ==>
        outcome.error.MissingParameter? && outcome.error.callee == e.callee.meth &&
        MissingParameterAt(e.callSite.callSite, MethodOf(prog, e.callee.meth), outcome.error.index) &&
        forall j | 0 <= j < outcome.error.index :: !MissingParameterAt(e.callSite.callSite, MethodOf(prog, e.callee.meth), j)
      ensures outcome.Pass? ==>
        Invariant(prog, State()) && Reached(prog, State()) &&
        Grows(old(State()).(callEntries := [e] + old(callEntries)), State())
      ensures e in callGraph && entryMethods == old(entryMethods)
      ensures e in old(callGraph) ==> State() == old(State())
      ensures e !in old(callGraph) ==>
        mid.callGraph == old(callGraph) + {e} && e.callee in mid.reachableCS && mid.pts == old(pts) &&
        Grows(old(State()).(callEntries := [e] + old(callEntries)), mid) &&
        ReachedOnly(prog, old(State()), mid, {e.callee}, {e.callee.meth}) &&
        State() == WithEdges(prog, mid,
          if outcome.Pass? then WiringEdges(prog, e)
          else ArgEdges(prog, e.callSite.context, e.callSite.callSite, e.callee, outcome.error.index))
    {
      ghost var t0 := State().(callEntries := [e] + callEntries);
      mid := State();
      if e in callGraph {
        assert State() == t0.(callGraph := t0.callGraph + {e}, callEntries := callEntries);
        PopCallEdge(prog, t0, State(), e);
        ReachedGrows(prog, t0, State());
        return Pass, mid;
      }
      callGraph := callGraph + {e};
      PopCallEdge(prog, t0, State(), e);
      ghost var t1 := State();
      ProcessNewCSMethod(e.callee);
      ghost var t2 := State();
      mid := t2;
      GrowsTransitive(t0, t1, t2);
      ReachedOnlySameStart(prog, old(State()), t1, t2, {e.callee}, {e.callee.meth});
      outcome := WireCallEdge(e);
      if outcome.Pass? {
        NewCallEdgeReached(prog, t0, t1, t2, State(), e);
      }
    }

    /** The arguments and the results of `processCallEdge`: the flow edges that wire the edge `e`. */
    method WireCallEdge(e: CallEdge) returns (outcome: Outcome<AnalysisError>)
      requires Invariant(prog, State())
      modifies this
      ensures outcome.Fail? <==>
        exists i | 0 <= i < |e.callSite.callSite.args| ::
          MissingParameterAt(e.callSite.callSite, MethodOf(prog, e.callee.meth), i)
      ensures outcome.Fail? ==>
        outcome.error.MissingParameter? && outcome.error.callee == e.callee.meth &&
        MissingParameterAt(e.callSite.callSite, MethodOf(prog, e.callee.meth), outcome.error.index) &&
        forall j | 0 <= j < outcome.error.index :: !MissingParameterAt(e.callSite.callSite, MethodOf(prog, e.callee.meth), j)
      ensures State() == WithEdges(prog, old(State()),
        if outcome.Pass? then WiringEdges(prog, e)
        else ArgEdges(prog, e.callSite.context, e.callSite.callSite, e.callee, outcome.error.index))
      ensures SameReach(old(State()), State()) && pts == old(pts)
      ensures outcome.Pass? ==> Invariant(prog, State()) && Grows(old(State()), State()) && EdgeWired(prog, State(), e)
    {
      ghost var t0 := State();
      outcome := PassArguments(e.callSite.context, e.callSite.callSite, e.callee);
      if outcome.Fail? {
        return;
      }
      ghost var t1 := State();
      PassResults(e.callSite.context, e.callSite.callSite, e.callee);
      ArgsPassedGrows(prog, t1, State(), e.callSite.context, e.callSite.callSite, e.callee, |e.callSite.callSite.args|);
      GrowsTransitive(t0, t1, State());
      WithEdgesAppend(prog, t0, ArgEdges(prog, e.callSite.context, e.callSite.callSite, e.callee, |e.callSite.callSite.args|),
                      ResultEdges(prog, e.callSite.context, e.callSite.callSite, e.callee));
    }

    // ------------------------------------------------------------ the main loop

    /**
     * The structural rules of `solve` for a variable `x` whose set has just gained `diff`:
     * instance stores, instance loads, array stores and array loads, in that order.
     */
    method ConnectRules(x: Pointer, diff: set<CSObj>)
      requires x.CSVariable? && InvariantExcept(prog, State(), x, diff, AllRules)
      modifies this
      ensures InvariantExcept(prog, State(), x, diff, {CallRule})
      ensures Grows(old(State()), State()) && SameReach(old(State()), State())
      ensures pts == old(pts) && callEntries == old(callEntries)
    {
      ghost var t0 := State();
      GrowsReflexive(t0);
      var i := 0;
      while i < |StructuralRules|
        invariant 0 <= i <= |StructuralRules|
        invariant InvariantExcept(prog, State(), x, diff, AllRules - RulesBefore(i))
        invariant Grows(t0, State()) && SameReach(t0, State()) && pts == t0.pts && callEntries == t0.callEntries
      {
        ghost var before := State();
        StructuralRuleStep(i);
        ghost var orders := ConnectRule(StructuralRules[i], x, diff, AllRules - RulesBefore(i));
        GrowsTransitive(t0, before, State());
        assert AllRules - RulesBefore(i) - {StructuralRules[i]} == AllRules - RulesBefore(i + 1);
        i := i + 1;
      }
      StructuralRulesApplied();
    }

    /**
     * The rules of `solve` for a variable `x` whose set has just gained `diff`: the structural
     * rules, then the calls on `x`.
     */
    method ApplyRules(x: Pointer, diff: set<CSObj>) returns (outcome: Outcome<AnalysisError>)
      requires x.CSVariable? && InvariantExcept(prog, State(), x, diff, AllRules)
      modifies this
      ensures outcome.Fail? <==> diff != {} && exists cs | cs in VarOf(prog, x.variable).calls :: !Dispatchable(cs)
      ensures SameReach(old(State()), State())
      ensures outcome.Pass? ==> Invariant(prog, State()) && Grows(old(State()), State()) && pts == old(pts)
    {
      ghost var t0 := State();
      ConnectRules(x, diff);
      ghost var t1 := State();
      ghost var orders;
      outcome, orders := ProcessCall(x, diff, {CallRule});
      if outcome.Pass? {
        GrowsTransitive(t0, t1, State());
        assert {CallRule} - {CallRule} == {};
        NothingOpen(prog, State(), x, diff, {});
      }
    }

    /**
     * One round of the pointer loop of `solve`: the head entry `(x, s)` is taken off the queue and
     * propagated; when `x` is a variable, the new objects drive the rules.
     */
    method ProcessPointerEntry() returns (outcome: Outcome<AnalysisError>)
      requires pointerEntries != []
      requires Invariant(prog, State()) && Reached(prog, State())
      modifies this
      ensures outcome.Fail? <==>
        var x, s := old(pointerEntries[0].pointer), old(pointerEntries[0].objs);
        x.CSVariable? && s - PointsTo(old(State()), x) != {} &&
        exists cs | cs in VarOf(prog, x.variable).calls :: !Dispatchable(cs)
      ensures outcome.Pass? ==> Invariant(prog, State()) && Reached(prog, State()) && Grows(old(State()), State())
      ensures outcome.Pass? ==>
        var x, s := old(pointerEntries[0].pointer), old(pointerEntries[0].objs);
        pts == old(pts)[x := PointsTo(old(State()), x) + s]
      ensures SameReach(old(State()), State()) && entryMethods == old(entryMethods)
    {
      var entry := pointerEntries[0];
      pointerEntries := pointerEntries[1..];
      var x, s := entry.pointer, entry.objs;
      ghost var t := State();
      assert Unpolled(t, x, s) == old(State());
      var diff := Propagate(x, s);
      ghost var tp := State();
      PropagatedFlowClosed(prog, t, x, s);
      PropagatedOpensDiff(prog, t, x, s);
      PropagatedKeepsShapes(prog, t, x, s);
      PropagatedGrows(prog, t, x, s);
      if x.CSVariable? {
        outcome := ApplyRules(x, diff);
        if outcome.Fail? {
          return;
        }
      } else {
        NothingOpen(prog, State(), x, diff, AllRules);
        GrowsReflexive(tp);
        outcome := Pass;
      }
      GrowsTransitive(old(State()), tp, State());
      ReachedGrows(prog, old(State()), State());
    }

    /**
     * The pointer loop of `solve`: processes pointer entries until the queue is empty, one unit
     * of `steps` each. `stop` is `None` when the queue was drained.
     */
    method DrainPointerEntries(steps: nat) returns (stop: Option<SolveOutcome>, left: nat)
      requires Invariant(prog, State()) && Reached(prog, State())
      modifies this
      ensures left <= steps && stop != Some(Fixpoint)
      ensures stop.None? ==> pointerEntries == []
      ensures (stop.None? || stop == Some(OutOfFuel)) ==>
        Invariant(prog, State()) && Reached(prog, State()) && Grows(old(State()), State())
      ensures entryMethods == old(entryMethods)
    {
      ghost var t0 := State();
      GrowsReflexive(t0);
      left := steps;
      while pointerEntries != []
        invariant left <= steps
        invariant Invariant(prog, State()) && Reached(prog, State()) && Grows(t0, State())
        invariant entryMethods == t0.entryMethods
        decreases left
      {
        if left == 0 {
          return Some(OutOfFuel), left;
        }
        left := left - 1;
        ghost var before := State();
        var step := ProcessPointerEntry();
        if step.Fail? {
          return Some(Aborted(step.error)), left;
        }
        GrowsTransitive(t0, before, State());
      }
      stop := None;
    }

    /**
     * The call-edge loop of `solve`: processes queued call edges until the queue is empty, one
     * unit of `steps` each. `stop` is `None` when the queue was drained.
     */
    method DrainCallEntries(steps: nat) returns (stop: Option<SolveOutcome>, left: nat)
      requires WellFormed(prog) && Invariant(prog, State()) && Reached(prog, State())
      modifies this
      ensures left <= steps && stop != Some(Fixpoint)
      ensures stop.None? ==> callEntries == []
      ensures (stop.None? || stop == Some(OutOfFuel)) ==>
        Invariant(prog, State()) && Reached(prog, State()) && Grows(old(State()), State())
      ensures entryMethods == old(entryMethods)
    {
      ghost var t0 := State();
      GrowsReflexive(t0);
      left := steps;
      while callEntries != []
        invariant left <= steps
        invariant Invariant(prog, State()) && Reached(prog, State()) && Grows(t0, State())
        invariant entryMethods == t0.entryMethods
        decreases left
      {
        if left == 0 {
          return Some(OutOfFuel), left;
        }
        left := left - 1;
        ghost var before := State();
        var e := callEntries[0];
        callEntries := callEntries[1..];
        assert before == State().(callEntries := [e] + callEntries);
        var step;
        ghost var mid;
        step, mid := ProcessCallEdge(e);
        if step.Fail? {
          return Some(Aborted(step.error)), left;
        }
        GrowsTransitive(t0, before, State());
      }
      stop := None;
    }

    /**
     * `solve`: drains the pointer queue, then the call-edge queue, until both are empty. Each
     * round and each entry costs one unit of `fuel`; an analysis error aborts the run.
     */
    method Solve(fuel: nat) returns (outcome: SolveOutcome)
      requires WellFormed(prog) && Invariant(prog, State()) && Reached(prog, State())
      modifies this
      ensures outcome.Fixpoint? ==> pointerEntries == [] && callEntries == []
      ensures !outcome.Aborted? ==> Invariant(prog, State()) && Reached(prog, State()) && Grows(old(State()), State())
      ensures entryMethods == old(entryMethods)
    {
      ghost var t0 := State();
      GrowsReflexive(t0);
      var steps := fuel;
      while pointerEntries != [] || callEntries != []
        invariant Invariant(prog, State()) && Reached(prog, State()) && Grows(t0, State())
        invariant entryMethods == t0.entryMethods
        decreases steps
      {
        if steps == 0 {
          return OutOfFuel;
        }
        ghost var before := State();
        var stop;
        stop, steps := DrainPointerEntries(steps - 1);
        if stop.Some? {
          if stop.value.OutOfFuel? {
            GrowsTransitive(t0, before, State());
          }
          return stop.value;
        }
        GrowsTransitive(t0, before, State());
        ghost var middle := State();
        stop, steps := DrainCallEntries(steps);
        if stop.Some? {
          if stop.value.OutOfFuel? {
            GrowsTransitive(t0, middle, State());
          }
          return stop.value;
        }
        GrowsTransitive(t0, middle, State());
      }
      outcome := Fixpoint;
    }

    /** The entry methods under the default context. */
    ghost function EntryCSMethods(): set<CSMethod>
    {
      CSEntries(prog.defaultContext, ComputeEntries(prog))
    }

    /** The body of the entry loop of `initialize` for the entry method `m`. */
    method ProcessEntry(m: Method)
      requires WellFormed(prog) && Invariant(prog, State()) && Reached(prog, State())
      modifies this
      ensures Invariant(prog, State()) && Reached(prog, State()) && Grows(old(State()), State())
      ensures entryMethods == old(entryMethods) + {CSMethod(prog.defaultContext, m)}
      ensures ClassInitDone(prog, initializedClasses, MethodOf(prog, m).classType)
      ensures ReachedOnly(prog, old(State()), State(), {CSMethod(prog.defaultContext, m)}, {m})
    {
      ghost var t0 := State();
      InitializeClass(MethodOf(prog, m).classType);
      ReachedGrows(prog, t0, State());
      ghost var t1 := State();
      var csMethod := CSMethod(prog.defaultContext, m);
      entryMethods := entryMethods + {csMethod};
      ghost var t2 := State();
      ReachOnlyKeepsInvariant(prog, t1, t2);
      ProcessNewCSMethod(csMethod);
      NewEntryReached(prog, t1, t2, State(), csMethod);
      GrowsTransitive(t0, t1, State());
      ReachedOnlyChain(prog, t1, t2, State(), {}, {}, {csMethod}, {m}, {csMethod}, {m});
      ReachedOnlyChain(prog, t0, t1, State(), {}, {}, {csMethod}, {m}, {csMethod}, {m});
      ClassInitDoneGrows(prog, t1.initializedClasses, initializedClasses, MethodOf(prog, m).classType);
    }

    /**
     * The tail of `initialize`: the array of command-line arguments is seeded with its element
     * and, when the main method has a first parameter, that parameter with the array.
     */
    method SetUpMainArguments()
      requires Invariant(prog, State()) && Reached(prog, State())
      modifies this
      ensures State() == Queued(old(State()), [], MainEntries(prog))
      ensures Invariant(prog, State()) && Reached(prog, State()) && Grows(old(State()), State())
      ensures SameReach(old(State()), State())
      ensures CSObj(prog.defaultContext, prog.mainArgsElem) in
        Known(State(), ArrayIndex(CSObj(prog.defaultContext, prog.mainArgs)))
      ensures Param(MethodOf(prog, prog.mainMethod), 0).Some? ==>
        CSObj(prog.defaultContext, prog.mainArgs) in
          Known(State(), CSVariable(prog.defaultContext, Param(MethodOf(prog, prog.mainMethod), 0).value))
    {
      var defContext := prog.defaultContext;
      ghost var t0 := State();
      var argsArray := ArrayIndex(CSObj(defContext, prog.mainArgs));
      AddArrayPointsTo(defContext, prog.mainArgs, defContext, prog.mainArgsElem);
      PushKeepsInvariant(prog, t0, Entry(argsArray, {CSObj(defContext, prog.mainArgsElem)}), StaticField(0), {}, {});
      var param0 := Param(MethodOf(prog, prog.mainMethod), 0);
      if param0.Some? {
        ghost var t1 := State();
        AddVarPointsTo(defContext, param0.value, defContext, prog.mainArgs);
        PushKeepsInvariant(prog, t1, Entry(CSVariable(defContext, param0.value), {CSObj(defContext, prog.mainArgs)}),
                           StaticField(0), {}, {});
      }
      assert pointerEntries == t0.pointerEntries + MainEntries(prog);
      MainEntriesSeeded(prog, t0, State());
    }

    /** The entry loop of `initialize`: the entries, in order, through `ProcessEntry`. */
    method ProcessEntries(entries: seq<Method>)
      requires WellFormed(prog) && Invariant(prog, State()) && Reached(prog, State())
      modifies this
      ensures Invariant(prog, State()) && Reached(prog, State()) && Grows(old(State()), State())
      ensures entryMethods == old(entryMethods) + CSEntries(prog.defaultContext, entries)
      ensures EntryClassesDone(prog, initializedClasses, entries)
      ensures ReachedOnly(prog, old(State()), State(), CSEntries(prog.defaultContext, entries), set m | m in entries)
    {
      ghost var t0 := State();
      GrowsReflexive(t0);
      var k := 0;
      while k < |entries|
        invariant 0 <= k <= |entries|
        invariant EntriesProcessed(prog, t0, State(), entries, k)
        invariant ReachedOnly(prog, t0, State(), CSEntries(prog.defaultContext, entries), set m | m in entries)
      {
        ghost var before := State();
        ProcessEntry(entries[k]);
        ReachedOnlyChain(prog, t0, before, State(), CSEntries(prog.defaultContext, entries), set m | m in entries,
                         {CSMethod(prog.defaultContext, entries[k])}, {entries[k]},
                         CSEntries(prog.defaultContext, entries), set m | m in entries);
        EntriesProcessedStep(prog, t0, before, State(), entries, k);
        k := k + 1;
      }
      assert entries[..k] == entries;
    }

    /** The tables are emptied. */
    method Reset()
      modifies this
      ensures State() == EmptyTables()
    {
      pts, pfg, callGraph, entryMethods := map[], map[], {}, {};
      reachableCSMethods, reachableMethods, initializedClasses := {}, {}, {};
      pointerEntries, callEntries := [], [];
    }

    /**
     * `initialize`: fresh tables; each entry method has its class initialized and is recorded as
     * an entry and processed as a new method under the default context; then the main method's
     * arguments are set up.
     */
    method Initialize()
      requires WellFormed(prog)
      modifies this
      ensures Invariant(prog, State()) && Reached(prog, State())
      ensures entryMethods == EntryCSMethods() && entryMethods <= reachableCSMethods
      ensures EntryClassesDone(prog, initializedClasses, ComputeEntries(prog))
      ensures CSObj(prog.defaultContext, prog.mainArgsElem) in
        Known(State(), ArrayIndex(CSObj(prog.defaultContext, prog.mainArgs)))
      ensures Param(MethodOf(prog, prog.mainMethod), 0).Some? ==>
        CSObj(prog.defaultContext, prog.mainArgs) in
          Known(State(), CSVariable(prog.defaultContext, Param(MethodOf(prog, prog.mainMethod), 0).value))
      ensures forall m | m in reachableCSMethods ::
                m in entryMethods ||
                (m.context == prog.defaultContext &&
                 exists c | c in initializedClasses :: ClassInitializer(prog, c) == Some(m.meth))
      ensures forall meth | meth in reachableMethods ::
                meth in ComputeEntries(prog) ||
                exists c | c in initializedClasses :: ClassInitializer(prog, c) == Some(meth)
    {
      Reset();
      EmptyTablesClosed(prog);
      ProcessEntries(ComputeEntries(prog));
      SetUpMainArguments();
    }

    /**
     * `analyze`: initialization followed by the solver. A run that reaches the fixpoint leaves
     * tables that satisfy the invariant and the reachability conditions with both queues empty.
     */
    method Analyze(fuel: nat) returns (outcome: SolveOutcome)
      requires WellFormed(prog)
      modifies this
      ensures outcome.Fixpoint? ==>
        Invariant(prog, State()) && Reached(prog, State()) && pointerEntries == [] && callEntries == []
      ensures outcome.Fixpoint? ==> EntryCSMethods() <= reachableCSMethods
    {
      Initialize();
      outcome := Solve(fuel);
    }
  }
}
