/**
 * What the two primitive updates of the solver do to its tables, which invariants they keep, and
 * what the tables say once both queues are empty.
 */
module PtaFacts {
  import opened Wrappers
  import opened PtaProgram
  import opened PtaState

  // ---------------------------------------------------------------- queues and filters

  lemma PendingAppend(q: seq<Entry>, r: seq<Entry>, x: Pointer)
    ensures Pending(q + r, x) == Pending(q, x) + Pending(r, x)
  {
    forall o | o in Pending(q + r, x) ensures o in Pending(q, x) + Pending(r, x) {
      var e :| e in q + r && e.pointer == x && o in e.objs;
      if e in q {
        assert o in Pending(q, x);
      } else {
        assert o in Pending(r, x);
      }
    }
    forall o | o in Pending(q, x) + Pending(r, x) ensures o in Pending(q + r, x) {
      if o in Pending(q, x) {
        var e :| e in q && e.pointer == x && o in e.objs;
        assert e in q + r;
      } else {
        var e :| e in r && e.pointer == x && o in e.objs;
        assert e in q + r;
      }
    }
  }

  lemma PendingSingle(e: Entry, x: Pointer)
    ensures Pending([e], x) == if e.pointer == x then e.objs else {}
  {
    if e.pointer == x {
      forall o | o in e.objs ensures o in Pending([e], x) {
        assert e in [e];
      }
    }
  }

  /** The `i`-th out-edge's target is owed the filtered `diff` by the entries propagation appends. */
  lemma PendingOutEntries(p: Program, edges: seq<PFGEdge>, diff: set<CSObj>, i: nat)
    requires i < |edges|
    ensures Filtered(p, diff, edges[i].filter) <= Pending(OutEntries(p, edges, diff), edges[i].to)
  {
    var q := OutEntries(p, edges, diff);
    forall o | o in Filtered(p, diff, edges[i].filter) ensures o in Pending(q, edges[i].to) {
      assert q[i] in q;
    }
  }

  lemma FilteredUnion(p: Program, s1: set<CSObj>, s2: set<CSObj>, filter: Option<Type>)
    ensures Filtered(p, s1 + s2, filter) == Filtered(p, s1, filter) + Filtered(p, s2, filter)
  {
  }

  lemma FilteredMonotone(p: Program, s1: set<CSObj>, s2: set<CSObj>, filter: Option<Type>)
    requires s1 <= s2
    ensures Filtered(p, s1, filter) <= Filtered(p, s2, filter)
  {
  }

  // ---------------------------------------------------------------- growth

  lemma GrowsReflexive(t: Tables)
    ensures Grows(t, t)
  {
  }

  lemma GrowsTransitive(t1: Tables, t2: Tables, t3: Tables)
    requires Grows(t1, t2) && Grows(t2, t3)
    ensures Grows(t1, t3)
  {
    forall e | e in t1.callEntries ensures CallKnown(t3, e) {
      assert CallKnown(t2, e);
    }
  }

  lemma HasEdgeGrows(t: Tables, u: Tables, from: Pointer, to: Pointer, filter: Option<Type>, kind: FlowKind)
    requires Grows(t, u) && HasEdge(t, from, to, filter, kind)
    ensures HasEdge(u, from, to, filter, kind)
  {
    var e :| e in OutEdges(t, from) && e.to == to && e.kind == kind && e.filter == filter;
    var i :| 0 <= i < |OutEdges(t, from)| && OutEdges(t, from)[i] == e;
    assert OutEdges(u, from)[i] == e;
  }

  lemma CallDoneGrows(p: Program, t: Tables, u: Tables, c: Context, cs: CallSite, o: CSObj)
    requires Grows(t, u) && CallDone(p, t, c, cs, o)
    ensures CallDone(p, u, c, cs, o)
  {
  }

  lemma CallsDoneGrows(p: Program, t: Tables, u: Tables, c: Context, calls: seq<CallSite>, k: nat, d: set<CSObj>)
    requires k <= |calls| && Grows(t, u) && CallsDone(p, t, c, calls, k, d)
    ensures CallsDone(p, u, c, calls, k, d)
  {
    forall j, o | 0 <= j < k && o in d ensures CallDone(p, u, c, calls[j], o) {
      CallDoneGrows(p, t, u, c, calls[j], o);
    }
  }

  lemma CallsDoneExtend(p: Program, t: Tables, c: Context, calls: seq<CallSite>, k: nat, d: set<CSObj>)
    requires k < |calls| && CallsDone(p, t, c, calls, k, d)
    requires forall o | o in d :: CallDone(p, t, c, calls[k], o)
    ensures CallsDone(p, t, c, calls, k + 1, d)
  {
  }

  lemma {:induction false} ClassInitDoneGrows(p: Program, init: set<Type>, init': set<Type>, c: Type)
    requires init <= init' && ClassInitDone(p, init, c)
    ensures ClassInitDone(p, init', c)
    decreases Depth(p, c)
  {
    match SuperClass(p, c)
    case None =>
    case Some(s) => ClassInitDoneGrows(p, init, init', s);
  }

  lemma RuleDoneGrows(p: Program, t: Tables, u: Tables, r: Rule, c: Context, x: Variable, o: CSObj)
    requires Grows(t, u) && RuleDone(p, t, r, c, x, o)
    ensures RuleDone(p, u, r, c, x, o)
  {
    if r == CallRule {
      forall k | 0 <= k < |VarOf(p, x).calls| ensures CallDone(p, u, c, VarOf(p, x).calls[k], o) {
        CallDoneGrows(p, t, u, c, VarOf(p, x).calls[k], o);
      }
    } else {
      forall k | 0 <= k < RuleCount(p, r, x)
        ensures HasEdge(u, RuleEdge(p, r, c, x, o, k).from, RuleEdge(p, r, c, x, o, k).to, RuleEdge(p, r, c, x, o, k).filter,
                        RuleEdge(p, r, c, x, o, k).kind)
      {
        var e := RuleEdge(p, r, c, x, o, k);
        HasEdgeGrows(t, u, e.from, e.to, e.filter, e.kind);
      }
    }
  }

  /** Growth that leaves the points-to sets alone keeps the rule closure. */
  lemma VarClosedGrows(p: Program, t: Tables, u: Tables, v: Pointer, d: set<CSObj>, open: set<Rule>)
    requires Grows(t, u) && u.pts == t.pts && VarClosedExcept(p, t, v, d, open)
    ensures VarClosedExcept(p, u, v, d, open)
  {
    forall x, o, r: Rule {:trigger RuleDone(p, u, r, x.context, x.variable, o)}
      | x in u.pts && o in u.pts[x] && x.CSVariable? && !(x == v && o in d && r in open)
      ensures RuleDone(p, u, r, x.context, x.variable, o)
    {
      RuleDoneGrows(p, t, u, r, x.context, x.variable, o);
    }
  }

  lemma StmtDoneGrows(p: Program, t: Tables, u: Tables, m: CSMethod, s: Stmt)
    requires Grows(t, u) && StmtDone(p, t, m, s)
    ensures StmtDone(p, u, m, s)
  {
    var c := m.context;
    match s
    case Assign(to, from) => HasEdgeGrows(t, u, CSVariable(c, from), CSVariable(c, to), None, LocalAssignEdge);
    case AssignCast(to, from, ty) => HasEdgeGrows(t, u, CSVariable(c, from), CSVariable(c, to), Some(ty), CastEdge);
    case StaticLoad(to, f) => HasEdgeGrows(t, u, StaticField(f), CSVariable(c, to), None, StaticLoadEdge);
    case StaticStore(f, from) => HasEdgeGrows(t, u, CSVariable(c, from), StaticField(f), None, StaticStoreEdge);
    case _ =>
  }

  lemma MethodDoneGrows(p: Program, t: Tables, u: Tables, m: CSMethod)
    requires Grows(t, u) && MethodDone(p, t, m)
    ensures MethodDone(p, u, m)
  {
    forall s | s in MethodOf(p, m.meth).statements ensures StmtDone(p, u, m, s) {
      StmtDoneGrows(p, t, u, m, s);
    }
  }

  lemma MethodInitDoneGrows(p: Program, t: Tables, u: Tables, meth: Method)
    requires Grows(t, u) && MethodInitDone(p, t, meth)
    ensures MethodInitDone(p, u, meth)
  {
    forall s, c | s in MethodOf(p, meth).statements && c in InitTriggers(p, s) ensures ClassInitDone(p, u.initializedClasses, c) {
      ClassInitDoneGrows(p, t.initializedClasses, u.initializedClasses, c);
    }
  }

  lemma EdgeWiredGrows(p: Program, t: Tables, u: Tables, e: CallEdge)
    requires Grows(t, u) && EdgeWired(p, t, e)
    ensures EdgeWired(p, u, e)
  {
    var callee := MethodOf(p, e.callee.meth);
    var cs := e.callSite.callSite;
    forall i | 0 <= i < |cs.args| && cs.args[i].Some?
      ensures HasEdge(u, CSVariable(e.callSite.context, cs.args[i].value), CSVariable(e.callee.context, Param(callee, i).value),
                      None, ParameterPassingEdge)
    {
      HasEdgeGrows(t, u, CSVariable(e.callSite.context, cs.args[i].value), CSVariable(e.callee.context, Param(callee, i).value),
                   None, ParameterPassingEdge);
    }
    if cs.lhs.Some? {
      forall r | r in callee.returnVars
        ensures HasEdge(u, CSVariable(e.callee.context, r), CSVariable(e.callSite.context, cs.lhs.value), None, ReturnEdge)
      {
        HasEdgeGrows(t, u, CSVariable(e.callee.context, r), CSVariable(e.callSite.context, cs.lhs.value), None, ReturnEdge);
      }
    }
  }

  /** Two steps that each process what they made reachable together process what they made reachable. */
  lemma NewlyDoneChain(p: Program, t0: Tables, t1: Tables, t2: Tables)
    requires Grows(t0, t1) && Grows(t1, t2) && NewlyDone(p, t0, t1) && NewlyDone(p, t1, t2)
    ensures NewlyDone(p, t0, t2)
  {
    forall m | m in t2.reachableCS && m !in t0.reachableCS ensures MethodDone(p, t2, m) {
      if m in t1.reachableCS {
        MethodDoneGrows(p, t1, t2, m);
      }
    }
    forall meth | meth in t2.reachableMethods && meth !in t0.reachableMethods ensures MethodInitDone(p, t2, meth) {
      if meth in t1.reachableMethods {
        MethodInitDoneGrows(p, t1, t2, meth);
      }
    }
  }

  /**
   * Growth that processes whatever it makes reachable, reaches every new entry method and wires
   * every new call-graph edge keeps `Reached`.
   */
  lemma ReachedGrows(p: Program, t: Tables, u: Tables)
    requires Reached(p, t) && Grows(t, u) && NewlyDone(p, t, u)
    requires forall m | m in u.entryMethods && m !in t.entryMethods :: m in u.reachableCS
    requires forall e | e in u.callGraph && e !in t.callGraph :: e.callee in u.reachableCS && EdgeWired(p, u, e)
    ensures Reached(p, u)
  {
    forall m | m in u.reachableCS ensures MethodDone(p, u, m) {
      if m in t.reachableCS {
        MethodDoneGrows(p, t, u, m);
      }
    }
    forall meth | meth in u.reachableMethods ensures MethodInitDone(p, u, meth) {
      if meth in t.reachableMethods {
        MethodInitDoneGrows(p, t, u, meth);
      }
    }
    forall e | e in u.callGraph ensures EdgeWired(p, u, e) {
      if e in t.callGraph {
        EdgeWiredGrows(p, t, u, e);
      }
    }
  }

  /** Marking grows only by classes marked correctly, so the marking invariant survives growth. */
  lemma InitMarkedGrows(p: Program, t: Tables, u: Tables)
    requires InitMarked(p, t) && Grows(t, u)
    requires forall c | c in u.initializedClasses && c !in t.initializedClasses ::
      ClassInitializer(p, c).Some? && ClassInitDone(p, u.initializedClasses, c)
    ensures InitMarked(p, u)
  {
    forall c | c in t.initializedClasses ensures ClassInitDone(p, u.initializedClasses, c) {
      ClassInitDoneGrows(p, t.initializedClasses, u.initializedClasses, c);
    }
  }

  /** Growing only the queues keeps every flow edge closed. */
  lemma FlowClosedQueueGrows(p: Program, t: Tables, u: Tables)
    requires FlowClosed(p, t) && u.pts == t.pts && u.pfg == t.pfg
    requires forall x :: Known(t, x) <= Known(u, x)
    ensures FlowClosed(p, u)
  {
  }

  lemma RuleEdgesDoneGrows(p: Program, t: Tables, u: Tables, r: Rule, c: Context, x: Variable, k: nat, d: set<CSObj>)
    requires r != CallRule && k <= RuleCount(p, r, x)
    requires Grows(t, u) && RuleEdgesDone(p, t, r, c, x, k, d)
    ensures RuleEdgesDone(p, u, r, c, x, k, d)
  {
    forall j, o | 0 <= j < k && o in d
      ensures HasEdge(u, RuleEdge(p, r, c, x, o, j).from, RuleEdge(p, r, c, x, o, j).to, RuleEdge(p, r, c, x, o, j).filter,
                      RuleEdge(p, r, c, x, o, j).kind)
    {
      var e := RuleEdge(p, r, c, x, o, j);
      HasEdgeGrows(t, u, e.from, e.to, e.filter, e.kind);
    }
  }

  lemma RuleEdgesDoneExtend(p: Program, t: Tables, r: Rule, c: Context, x: Variable, k: nat, d: set<CSObj>)
    requires r != CallRule && k < RuleCount(p, r, x) && RuleEdgesDone(p, t, r, c, x, k, d)
    requires forall o | o in d ::
      HasEdge(t, RuleEdge(p, r, c, x, o, k).from, RuleEdge(p, r, c, x, o, k).to, RuleEdge(p, r, c, x, o, k).filter,
              RuleEdge(p, r, c, x, o, k).kind)
    ensures RuleEdgesDone(p, t, r, c, x, k + 1, d)
  {
  }

  /** Once every statement of the structural rule `r` has its edges for `d`, the rule is closed for `d`. */
  lemma StructuralRuleCloses(p: Program, t: Tables, r: Rule, v: Pointer, d: set<CSObj>, open: set<Rule>)
    requires r != CallRule && v.CSVariable? && InvariantExcept(p, t, v, d, open)
    requires RuleEdgesDone(p, t, r, v.context, v.variable, RuleCount(p, r, v.variable), d)
    ensures InvariantExcept(p, t, v, d, open - {r})
  {
    forall y, o, r': Rule {:trigger RuleDone(p, t, r', y.context, y.variable, o)}
      | y in t.pts && o in t.pts[y] && y.CSVariable? && !(y == v && o in d && r' in open - {r})
      ensures RuleDone(p, t, r', y.context, y.variable, o)
    {
    }
  }

  /** Arguments passed stay passed as the tables grow. */
  lemma ArgsPassedGrows(p: Program, t: Tables, u: Tables, c: Context, cs: CallSite, callee: CSMethod, i: nat)
    requires i <= |cs.args| && Grows(t, u) && ArgsPassed(p, t, c, cs, callee, i)
    ensures ArgsPassed(p, u, c, cs, callee, i)
  {
    var info := MethodOf(p, callee.meth);
    forall j | 0 <= j < i && cs.args[j].Some?
      ensures HasEdge(u, CSVariable(c, cs.args[j].value), CSVariable(callee.context, Param(info, j).value), None,
                      ParameterPassingEdge)
    {
      HasEdgeGrows(t, u, CSVariable(c, cs.args[j].value), CSVariable(callee.context, Param(info, j).value), None,
                   ParameterPassingEdge);
    }
  }

  /** All return variables passed means each of them has its return edge. */
  lemma ResultsPassedAll(t: Tables, calleeContext: Context, rets: seq<Variable>, lhs: Pointer)
    requires ResultsPassed(t, calleeContext, rets, lhs, |rets|)
    ensures forall r | r in rets :: HasEdge(t, CSVariable(calleeContext, r), lhs, None, ReturnEdge)
  {
    forall r | r in rets ensures HasEdge(t, CSVariable(calleeContext, r), lhs, None, ReturnEdge) {
      var j :| 0 <= j < |rets| && rets[j] == r;
    }
  }

  /** Once every call on `v` is done for every object of `d`, the call rule is closed for `d`. */
  lemma CallRuleCloses(p: Program, t: Tables, v: Pointer, d: set<CSObj>, open: set<Rule>)
    requires v.CSVariable? && InvariantExcept(p, t, v, d, open)
    requires CallsDone(p, t, v.context, VarOf(p, v.variable).calls, |VarOf(p, v.variable).calls|, d)
    ensures InvariantExcept(p, t, v, d, open - {CallRule})
  {
    forall y, o, r: Rule {:trigger RuleDone(p, t, r, y.context, y.variable, o)}
      | y in t.pts && o in t.pts[y] && y.CSVariable? && !(y == v && o in d && r in open - {CallRule})
      ensures RuleDone(p, t, r, y.context, y.variable, o)
    {
    }
  }

  /** Appending an entry to the pointer queue keeps the invariant and only grows the tables. */
  lemma PushKeepsInvariant(p: Program, t: Tables, e: Entry, v: Pointer, d: set<CSObj>, open: set<Rule>)
    requires InvariantExcept(p, t, v, d, open)
    ensures Grows(t, t.(pointerEntries := t.pointerEntries + [e]))
    ensures InvariantExcept(p, t.(pointerEntries := t.pointerEntries + [e]), v, d, open)
    ensures e.objs <= Known(t.(pointerEntries := t.pointerEntries + [e]), e.pointer)
  {
    var u := t.(pointerEntries := t.pointerEntries + [e]);
    forall x ensures Known(t, x) <= Known(u, x) {
      PendingAppend(t.pointerEntries, [e], x);
    }
    PendingAppend(t.pointerEntries, [e], e.pointer);
    PendingSingle(e, e.pointer);
    FlowClosedQueueGrows(p, t, u);
    VarClosedGrows(p, t, u, v, d, open);
  }

  /** Appending a call edge to the call queue keeps the invariant and only grows the tables. */
  lemma PushCallKeepsInvariant(p: Program, t: Tables, e: CallEdge, v: Pointer, d: set<CSObj>, open: set<Rule>)
    requires InvariantExcept(p, t, v, d, open)
    ensures Grows(t, t.(callEntries := t.callEntries + [e]))
    ensures InvariantExcept(p, t.(callEntries := t.callEntries + [e]), v, d, open)
  {
    var u := t.(callEntries := t.callEntries + [e]);
    VarClosedGrows(p, t, u, v, d, open);
  }

  // ---------------------------------------------------------------- propagation

  /** `(x, s)` as it sat at the head of the queue before it was taken off. */
  function Unpolled(t: Tables, x: Pointer, s: set<CSObj>): Tables {
    t.(pointerEntries := [Entry(x, s)] + t.pointerEntries)
  }

  /** Propagation keeps every resident object and adds exactly the incoming ones. */
  lemma PropagatedPointsTo(p: Program, t: Tables, x: Pointer, s: set<CSObj>)
    ensures PointsTo(Propagated(p, t, x, s), x) == PointsTo(t, x) + s
    ensures PointsTo(Propagated(p, t, x, s), x) - PointsTo(t, x) == s - PointsTo(t, x)
    ensures forall y | y != x :: PointsTo(Propagated(p, t, x, s), y) == PointsTo(t, y)
  {
  }

  /** Re-delivering resident objects changes no points-to set and enqueues nothing. */
  lemma PropagatedRedelivery(p: Program, t: Tables, x: Pointer, s: set<CSObj>)
    requires s <= PointsTo(t, x)
    ensures Propagated(p, t, x, s).pointerEntries == t.pointerEntries
    ensures forall y :: PointsTo(Propagated(p, t, x, s), y) == PointsTo(t, y)
  {
    assert s - PointsTo(t, x) == {};
  }

  /** A non-empty difference is sent along every out-edge of `x`, filtered by the edge's type. */
  lemma PropagatedSendsAlongEdges(p: Program, t: Tables, x: Pointer, s: set<CSObj>, i: nat)
    requires s - PointsTo(t, x) != {} && i < |OutEdges(t, x)|
    ensures Entry(OutEdges(t, x)[i].to, Filtered(p, s - PointsTo(t, x), OutEdges(t, x)[i].filter))
      == Propagated(p, t, x, s).pointerEntries[|t.pointerEntries| + i]
  {
  }

  lemma PropagatedGrows(p: Program, t: Tables, x: Pointer, s: set<CSObj>)
    ensures Grows(Unpolled(t, x, s), Propagated(p, t, x, s))
  {
    var t0 := Unpolled(t, x, s);
    var u := Propagated(p, t, x, s);
    var diff := s - PointsTo(t, x);
    forall y ensures Known(t0, y) <= Known(u, y) {
      PendingAppend([Entry(x, s)], t.pointerEntries, y);
      PendingSingle(Entry(x, s), y);
      if diff != {} {
        PendingAppend(t.pointerEntries, OutEntries(p, OutEdges(t, x), diff), y);
      }
    }
  }

  /** Propagation keeps every flow edge closed: the difference is owed to each out-edge's target. */
  lemma PropagatedFlowClosed(p: Program, t: Tables, x: Pointer, s: set<CSObj>)
    requires FlowClosed(p, Unpolled(t, x, s))
    ensures FlowClosed(p, Propagated(p, t, x, s))
  {
    var t0 := Unpolled(t, x, s);
    var u := Propagated(p, t, x, s);
    var diff := s - PointsTo(t, x);
    PropagatedGrows(p, t, x, s);
    forall y, i | y in u.pfg && 0 <= i < |u.pfg[y]|
      ensures Filtered(p, PointsTo(u, y), u.pfg[y][i].filter) <= Known(u, u.pfg[y][i].to)
    {
      var e := u.pfg[y][i];
      assert Filtered(p, PointsTo(t0, y), e.filter) <= Known(t0, e.to);
      if y == x {
        assert PointsTo(u, y) == PointsTo(t, x) + diff;
        FilteredUnion(p, PointsTo(t, x), diff, e.filter);
        if diff != {} {
          PendingOutEntries(p, OutEdges(t, x), diff, i);
          PendingAppend(t.pointerEntries, OutEntries(p, OutEdges(t, x), diff), e.to);
        }
      }
    }
  }

  /** After propagation only the new objects of `x` still await the transfer rules. */
  lemma PropagatedOpensDiff(p: Program, t: Tables, x: Pointer, s: set<CSObj>)
    requires VarClosedExcept(p, Unpolled(t, x, s), StaticField(0), {}, {})
    ensures VarClosedExcept(p, Propagated(p, t, x, s), x, s - PointsTo(t, x), AllRules)
  {
    var t0 := Unpolled(t, x, s);
    var u := Propagated(p, t, x, s);
    PropagatedGrows(p, t, x, s);
    forall y, o, r: Rule {:trigger RuleDone(p, u, r, y.context, y.variable, o)}
      | y in u.pts && o in u.pts[y] && y.CSVariable? && !(y == x && o in s - PointsTo(t, x) && r in AllRules)
      ensures RuleDone(p, u, r, y.context, y.variable, o)
    {
      if y == x {
        assert r in AllRules by {
          match r
          case StoreRule => case LoadRule => case ArrayStoreRule => case ArrayLoadRule => case CallRule =>
        }
        assert o in PointsTo(t, x);
      }
      assert y in t0.pts && o in t0.pts[y];
      RuleDoneGrows(p, t0, u, r, y.context, y.variable, o);
    }
  }

  lemma PropagatedKeepsShapes(p: Program, t: Tables, x: Pointer, s: set<CSObj>)
    requires EdgeShapes(p, t) && InitMarked(p, t)
    ensures EdgeShapes(p, Propagated(p, t, x, s)) && InitMarked(p, Propagated(p, t, x, s))
  {
  }

  // ---------------------------------------------------------------- edge insertion

  /** After insertion the graph holds the edge. */
  lemma WithEdgeHasEdge(p: Program, t: Tables, from: Pointer, to: Pointer, filter: Option<Type>, kind: FlowKind)
    ensures HasEdge(WithEdge(p, t, from, to, filter, kind), from, to, filter, kind)
  {
    if !HasEdge(t, from, to, filter, kind) {
      var u := WithEdge(p, t, from, to, filter, kind);
      assert OutEdges(u, from)[|OutEdges(t, from)|] == PFGEdge(to, kind, filter);
    }
  }

  /** Inserting the same edge twice has the effect of inserting it once. */
  lemma WithEdgeIdempotent(p: Program, t: Tables, from: Pointer, to: Pointer, filter: Option<Type>, kind: FlowKind)
    ensures WithEdge(p, WithEdge(p, t, from, to, filter, kind), from, to, filter, kind)
         == WithEdge(p, t, from, to, filter, kind)
  {
    WithEdgeHasEdge(p, t, from, to, filter, kind);
  }

  /** A new edge replays exactly the filtered current set of its source, and only when non-empty. */
  lemma WithEdgeReplays(p: Program, t: Tables, from: Pointer, to: Pointer, filter: Option<Type>, kind: FlowKind)
    requires !HasEdge(t, from, to, filter, kind)
    ensures var u := WithEdge(p, t, from, to, filter, kind);
      OutEdges(u, from) == OutEdges(t, from) + [PFGEdge(to, kind, filter)] &&
      (Filtered(p, PointsTo(t, from), filter) == {} <==> u.pointerEntries == t.pointerEntries) &&
      (Filtered(p, PointsTo(t, from), filter) != {} ==>
         u.pointerEntries == t.pointerEntries + [Entry(to, Filtered(p, PointsTo(t, from), filter))])
  {
  }

  lemma WithEdgeGrows(p: Program, t: Tables, from: Pointer, to: Pointer, filter: Option<Type>, kind: FlowKind)
    ensures Grows(t, WithEdge(p, t, from, to, filter, kind))
  {
    var u := WithEdge(p, t, from, to, filter, kind);
    if !HasEdge(t, from, to, filter, kind) {
      var replay := Filtered(p, PointsTo(t, from), filter);
      if replay != {} {
        forall y ensures Known(t, y) <= Known(u, y) {
          PendingAppend(t.pointerEntries, [Entry(to, replay)], y);
        }
      }
    }
  }

  /** Insertion keeps the invariant, provided the edge has the shape its kind prescribes. */
  lemma WithEdgeKeepsInvariant(p: Program, t: Tables, from: Pointer, to: Pointer, filter: Option<Type>, kind: FlowKind,
                               v: Pointer, d: set<CSObj>, open: set<Rule>)
    requires InvariantExcept(p, t, v, d, open)
    requires EdgeShape(p, PFGEdge(to, kind, filter))
    ensures InvariantExcept(p, WithEdge(p, t, from, to, filter, kind), v, d, open)
  {
    var u := WithEdge(p, t, from, to, filter, kind);
    WithEdgeGrows(p, t, from, to, filter, kind);
    VarClosedGrows(p, t, u, v, d, open);
    if !HasEdge(t, from, to, filter, kind) {
      var replay := Filtered(p, PointsTo(t, from), filter);
      forall y, i | y in u.pfg && 0 <= i < |u.pfg[y]|
        ensures Filtered(p, PointsTo(u, y), u.pfg[y][i].filter) <= Known(u, u.pfg[y][i].to)
      {
        if y == from && i == |OutEdges(t, from)| {
          if replay != {} {
            PendingAppend(t.pointerEntries, [Entry(to, replay)], to);
            PendingSingle(Entry(to, replay), to);
          }
        } else {
          assert y in t.pfg && i < |t.pfg[y]| && u.pfg[y][i] == t.pfg[y][i];
        }
      }
      forall y, i | y in u.pfg && 0 <= i < |u.pfg[y]| ensures EdgeShape(p, u.pfg[y][i]) {
        if !(y == from && i == |OutEdges(t, from)|) {
          assert y in t.pfg && i < |t.pfg[y]| && u.pfg[y][i] == t.pfg[y][i];
        }
      }
    }
  }

  // ---------------------------------------------------------------- reachability steps

  /** A state with nothing left open satisfies the plain invariant. */
  lemma NothingOpen(p: Program, t: Tables, v: Pointer, d: set<CSObj>, open: set<Rule>)
    requires InvariantExcept(p, t, v, d, open)
    requires open == {} || !v.CSVariable?
    ensures Invariant(p, t)
  {
    forall x, o, r: Rule {:trigger RuleDone(p, t, r, x.context, x.variable, o)}
      | x in t.pts && o in t.pts[x] && x.CSVariable?
      ensures RuleDone(p, t, r, x.context, x.variable, o)
    {
    }
  }

  /** The `i`-th structural rule is still open before it is applied, and the call rule stays open throughout. */
  lemma StructuralRuleStep(i: nat)
    requires i < |StructuralRules|
    ensures StructuralRules[i] !in RulesBefore(i) && CallRule !in RulesBefore(i + 1)
    ensures RulesBefore(i + 1) == RulesBefore(i) + {StructuralRules[i]}
  {
    assert StructuralRules[i] !in RulesBefore(i) by {
      forall j | 0 <= j < i ensures StructuralRules[j] != StructuralRules[i] {
      }
    }
  }

  /** Of the five rules, only the call rule is left once the four structural rules are applied. */
  lemma StructuralRulesApplied()
    ensures AllRules - RulesBefore(|StructuralRules|) == {CallRule}
  {
    var rest := AllRules - RulesBefore(|StructuralRules|);
    assert StoreRule == StructuralRules[0] && LoadRule == StructuralRules[1];
    assert ArrayStoreRule == StructuralRules[2] && ArrayLoadRule == StructuralRules[3];
    forall r | r in rest ensures r == CallRule {
      match r
      case StoreRule => case LoadRule => case ArrayStoreRule => case ArrayLoadRule => case CallRule =>
    }
    StructuralRuleStep(|StructuralRules| - 1);
  }

  /** Marking new reachable or entry methods leaves the flow tables, and so the invariant, alone. */
  lemma ReachOnlyKeepsInvariant(p: Program, t: Tables, u: Tables)
    requires Invariant(p, t)
    requires u.pts == t.pts && u.pfg == t.pfg && u.pointerEntries == t.pointerEntries
    requires u.callEntries == t.callEntries && u.callGraph == t.callGraph && u.initializedClasses == t.initializedClasses
    requires t.entryMethods <= u.entryMethods && t.reachableCS <= u.reachableCS && t.reachableMethods <= u.reachableMethods
    ensures Invariant(p, u) && Grows(t, u)
  {
    VarClosedGrows(p, t, u, StaticField(0), {}, {});
  }

  lemma TriggersDoneGrows(p: Program, init: set<Type>, init': set<Type>, stmts: seq<Stmt>, i: nat)
    requires i <= |stmts| && init <= init' && TriggersDone(p, init, stmts, i)
    ensures TriggersDone(p, init', stmts, i)
  {
    forall j, c | 0 <= j < i && c in InitTriggers(p, stmts[j]) ensures ClassInitDone(p, init', c) {
      ClassInitDoneGrows(p, init, init', c);
    }
  }

  lemma TriggersDoneExtend(p: Program, init: set<Type>, stmts: seq<Stmt>, i: nat)
    requires i < |stmts| && TriggersDone(p, init, stmts, i)
    requires forall c | c in InitTriggers(p, stmts[i]) :: ClassInitDone(p, init, c)
    ensures TriggersDone(p, init, stmts, i + 1)
  {
  }

  /** A method all of whose statements have their triggers done is done for class initialization. */
  lemma TriggersDoneMethod(p: Program, t: Tables, meth: Method)
    requires TriggersDone(p, t.initializedClasses, MethodOf(p, meth).statements, |MethodOf(p, meth).statements|)
    ensures MethodInitDone(p, t, meth)
  {
    var stmts := MethodOf(p, meth).statements;
    forall s, c | s in stmts && c in InitTriggers(p, s) ensures ClassInitDone(p, t.initializedClasses, c) {
      var j :| 0 <= j < |stmts| && stmts[j] == s;
    }
  }

  /** Marking a class whose superclasses are done, and which has an initializer, keeps the invariant. */
  lemma MarkKeepsInvariant(p: Program, t: Tables, c: Type)
    requires Invariant(p, t)
    requires ClassInitializer(p, c).Some? && ClassInitDone(p, t.initializedClasses + {c}, c)
    ensures Invariant(p, t.(initializedClasses := t.initializedClasses + {c}))
    ensures Grows(t, t.(initializedClasses := t.initializedClasses + {c}))
  {
    var u := t.(initializedClasses := t.initializedClasses + {c});
    InitMarkedGrows(p, t, u);
    VarClosedGrows(p, t, u, StaticField(0), {}, {});
  }

  /**
   * Taking the call edge `e` off the head of the call queue and recording it in the call graph
   * keeps the invariant: whatever relied on it being queued now finds it in the graph.
   */
  lemma PopCallEdge(p: Program, t: Tables, u: Tables, e: CallEdge)
    requires Invariant(p, t) && t.callEntries == [e] + u.callEntries
    requires u == t.(callGraph := t.callGraph + {e}, callEntries := u.callEntries)
    ensures Invariant(p, u) && Grows(t, u)
  {
    forall e' | e' in t.callEntries ensures CallKnown(u, e') {
      if e' != e {
        assert e' in u.callEntries;
      }
    }
    VarClosedGrows(p, t, u, StaticField(0), {}, {});
  }

  /**
   * A new call edge `e`, added to `t0` to give `t1`, whose callee is then processed (`t2`) and
   * whose flow edges are then wired (`t3`), leaves the reachability conditions holding.
   */
  lemma NewCallEdgeReached(p: Program, t0: Tables, t1: Tables, t2: Tables, t3: Tables, e: CallEdge)
    requires Reached(p, t0) && Grows(t0, t1)
    requires t1.callGraph == t0.callGraph + {e} && t1.entryMethods == t0.entryMethods
    requires t1.reachableCS == t0.reachableCS && t1.reachableMethods == t0.reachableMethods
    requires t1.initializedClasses == t0.initializedClasses
    requires Grows(t1, t2) && NewlyDone(p, t1, t2) && e.callee in t2.reachableCS
    requires t2.entryMethods == t1.entryMethods && t2.callGraph == t1.callGraph
    requires Grows(t2, t3) && SameReach(t2, t3) && EdgeWired(p, t3, e)
    ensures Reached(p, t3) && Grows(t0, t3)
  {
    GrowsTransitive(t1, t2, t3);
    NewlyDoneChain(p, t1, t2, t3);
    GrowsTransitive(t0, t1, t3);
    ReachedAddEdge(p, t0, t3, e);
  }

  /**
   * An entry method `m`, recorded in `t0` to give `t1` and then processed (`t2`), leaves the
   * reachability conditions holding.
   */
  lemma NewEntryReached(p: Program, t0: Tables, t1: Tables, t2: Tables, m: CSMethod)
    requires Reached(p, t0) && Grows(t0, t1)
    requires t1.entryMethods == t0.entryMethods + {m} && t1.callGraph == t0.callGraph
    requires t1.reachableCS == t0.reachableCS && t1.reachableMethods == t0.reachableMethods
    requires t1.initializedClasses == t0.initializedClasses
    requires Grows(t1, t2) && NewlyDone(p, t1, t2) && m in t2.reachableCS
    requires t2.entryMethods == t1.entryMethods && t2.callGraph == t1.callGraph
    ensures Reached(p, t2) && Grows(t0, t2)
  {
    GrowsTransitive(t0, t1, t2);
    ReachedGrows(p, t0, t2);
  }

  /** Tables that grow from `t` by the wired edge `e` and by what they process keep `Reached`. */
  lemma ReachedAddEdge(p: Program, t: Tables, u: Tables, e: CallEdge)
    requires Reached(p, t) && Grows(t, u) && NewlyDone(p, t, u)
    requires u.entryMethods == t.entryMethods && u.callGraph == t.callGraph + {e}
    requires e.callee in u.reachableCS && EdgeWired(p, u, e)
    ensures Reached(p, u)
  {
    ReachedGrows(p, t, u);
  }

  /** `ReachedOnly` composes: what two steps reach is what either of them may reach. */
  lemma ReachedOnlyChain(p: Program, t0: Tables, t1: Tables, t2: Tables,
                         r1: set<CSMethod>, m1: set<Method>, r2: set<CSMethod>, m2: set<Method>,
                         roots: set<CSMethod>, meths: set<Method>)
    requires Grows(t0, t1) && Grows(t1, t2)
    requires ReachedOnly(p, t0, t1, r1, m1) && ReachedOnly(p, t1, t2, r2, m2)
    requires r1 + r2 <= roots && m1 + m2 <= meths
    ensures ReachedOnly(p, t0, t2, roots, meths)
  {
    forall meth: Method | NewClinit(p, t0, t1, meth) ensures NewClinit(p, t0, t2, meth) {
      var c :| c in t1.initializedClasses && c !in t0.initializedClasses && ClassInitializer(p, c) == Some(meth);
      assert c in t2.initializedClasses;
    }
    forall meth: Method | NewClinit(p, t1, t2, meth) ensures NewClinit(p, t0, t2, meth) {
      var c :| c in t2.initializedClasses && c !in t1.initializedClasses && ClassInitializer(p, c) == Some(meth);
      assert c !in t0.initializedClasses;
    }
  }

  /**
   * The initializer of a class initialized between `t0` and `t` need not be named as a root:
   * it is covered by `ReachedOnly` itself.
   */
  lemma ReachedOnlyClinit(p: Program, t0: Tables, t: Tables, cls: Type, clinit: Method,
                          roots: set<CSMethod>, meths: set<Method>)
    requires ClassInitializer(p, cls) == Some(clinit)
    requires cls in t.initializedClasses && cls !in t0.initializedClasses
    requires ReachedOnly(p, t0, t, roots + {CSMethod(p.defaultContext, clinit)}, meths + {clinit})
    ensures ReachedOnly(p, t0, t, roots, meths)
  {
    assert NewClinit(p, t0, t, clinit);
  }

  /** `ReachedOnly` depends on its first state only through what is reachable and initialized there. */
  lemma ReachedOnlySameStart(p: Program, t0: Tables, t1: Tables, t: Tables, roots: set<CSMethod>, meths: set<Method>)
    requires t0.reachableCS == t1.reachableCS && t0.reachableMethods == t1.reachableMethods
    requires t0.initializedClasses == t1.initializedClasses
    requires ReachedOnly(p, t1, t, roots, meths)
    ensures ReachedOnly(p, t0, t, roots, meths)
  {
    forall meth: Method | NewClinit(p, t1, t, meth) ensures NewClinit(p, t0, t, meth) {
      var c :| c in t.initializedClasses && c !in t1.initializedClasses && ClassInitializer(p, c) == Some(meth);
      assert c !in t0.initializedClasses;
    }
  }

  /**
   * A method that is neither one of `meths` nor any class's initializer does not become
   * reachable in a step that satisfies `ReachedOnly`.
   */
  lemma ReachedOnlyExcludes(p: Program, t0: Tables, t: Tables, roots: set<CSMethod>, meths: set<Method>, meth: Method)
    requires ReachedOnly(p, t0, t, roots, meths)
    requires meth !in t0.reachableMethods && meth !in meths
    requires forall c :: ClassInitializer(p, c) != Some(meth)
    ensures meth !in t.reachableMethods
  {
  }

  /**
   * Whatever a step marks itself (between `t0` and `t1`) and has processed by `t2`, together with
   * whatever the rest of the step made reachable and processed, is what `NewlyDone` asks for.
   */
  lemma NewlyDoneAfterMark(p: Program, t0: Tables, t1: Tables, t2: Tables)
    requires Grows(t0, t1) && Grows(t1, t2) && NewlyDone(p, t1, t2)
    requires forall m | m in t1.reachableCS && m !in t0.reachableCS :: MethodDone(p, t2, m)
    requires forall meth | meth in t1.reachableMethods && meth !in t0.reachableMethods :: MethodInitDone(p, t2, meth)
    requires forall c | c in t1.initializedClasses && c !in t0.initializedClasses :: ClinitReached(p, t2, c)
    ensures NewlyDone(p, t0, t2)
  {
  }

  lemma CSEntriesSnoc(c: Context, ms: seq<Method>, m: Method)
    ensures CSEntries(c, ms + [m]) == CSEntries(c, ms) + {CSMethod(c, m)}
  {
    forall x | x in CSEntries(c, ms + [m]) ensures x in CSEntries(c, ms) + {CSMethod(c, m)} {
      var y :| y in ms + [m] && x == CSMethod(c, y);
      if y != m {
        assert y in ms;
      }
    }
    forall x | x in CSEntries(c, ms) ensures x in CSEntries(c, ms + [m]) {
      var y :| y in ms && x == CSMethod(c, y);
      assert y in ms + [m];
    }
    assert m in ms + [m];
  }

  lemma EntryClassesDoneGrows(p: Program, init: set<Type>, init': set<Type>, ms: seq<Method>)
    requires init <= init' && EntryClassesDone(p, init, ms)
    ensures EntryClassesDone(p, init', ms)
  {
    forall m | m in ms ensures ClassInitDone(p, init', MethodOf(p, m).classType) {
      ClassInitDoneGrows(p, init, init', MethodOf(p, m).classType);
    }
  }

  lemma EntryClassesDoneSnoc(p: Program, init: set<Type>, ms: seq<Method>, m: Method)
    requires EntryClassesDone(p, init, ms) && ClassInitDone(p, init, MethodOf(p, m).classType)
    ensures EntryClassesDone(p, init, ms + [m])
  {
    forall x | x in ms + [m] ensures ClassInitDone(p, init, MethodOf(p, x).classType) {
      if x != m {
        assert x in ms;
      }
    }
  }

  /** The first `k` entries of `entries` are processed in `t`, starting from `t0`. */
  ghost predicate EntriesProcessed(p: Program, t0: Tables, t: Tables, entries: seq<Method>, k: nat)
    requires k <= |entries|
  {
    Invariant(p, t) && Reached(p, t) && Grows(t0, t) &&
    t.entryMethods == t0.entryMethods + CSEntries(p.defaultContext, entries[..k]) &&
    EntryClassesDone(p, t.initializedClasses, entries[..k])
  }

  /** Processing entry `k` (from `t` to `u`, as `ProcessEntry` promises) extends `EntriesProcessed`. */
  lemma EntriesProcessedStep(p: Program, t0: Tables, t: Tables, u: Tables, entries: seq<Method>, k: nat)
    requires k < |entries| && EntriesProcessed(p, t0, t, entries, k)
    requires Invariant(p, u) && Reached(p, u) && Grows(t, u)
    requires u.entryMethods == t.entryMethods + {CSMethod(p.defaultContext, entries[k])}
    requires ClassInitDone(p, u.initializedClasses, MethodOf(p, entries[k]).classType)
    ensures EntriesProcessed(p, t0, u, entries, k + 1)
  {
    GrowsTransitive(t0, t, u);
    assert entries[..k + 1] == entries[..k] + [entries[k]];
    CSEntriesSnoc(p.defaultContext, entries[..k], entries[k]);
    EntryClassesDoneGrows(p, t.initializedClasses, u.initializedClasses, entries[..k]);
    EntryClassesDoneSnoc(p, u.initializedClasses, entries[..k], entries[k]);
  }

  /** The empty tables the solver starts from. */
  function EmptyTables(): Tables {
    Tables(map[], map[], {}, {}, {}, {}, {}, [], [])
  }

  lemma EmptyTablesClosed(p: Program)
    ensures Invariant(p, EmptyTables()) && Reached(p, EmptyTables())
  {
  }

  // ---------------------------------------------------------------- the fixpoint

  /**
   * Once both queues are empty the tables are a solution: every flow edge carries its filtered
   * source set (so every cast of a reachable method delivers each object of its source that the
   * cast type admits), every rule has been applied to every resident object, and every reachable
   * method, triggered class and call-graph edge has been processed.
   */
  lemma FixpointIsClosed(p: Program, t: Tables)
    requires Invariant(p, t) && Reached(p, t) && t.pointerEntries == [] && t.callEntries == []
    ensures forall x | true :: Known(t, x) == PointsTo(t, x)
    ensures forall e | CallKnown(t, e) :: e in t.callGraph
    ensures forall x, i | x in t.pfg && 0 <= i < |t.pfg[x]| ::
      Filtered(p, PointsTo(t, x), t.pfg[x][i].filter) <= PointsTo(t, t.pfg[x][i].to)
    ensures forall x, i | x in t.pfg && 0 <= i < |t.pfg[x]| && t.pfg[x][i].kind == ArrayStoreEdge ::
      t.pfg[x][i].to.ArrayIndex? &&
      Assignable(p, PointsTo(t, x), ArrayIndexType(p, t.pfg[x][i].to.arrayObj)) <= PointsTo(t, t.pfg[x][i].to)
    ensures forall x, o, r: Rule | x in t.pts && o in t.pts[x] && x.CSVariable? :: RuleDone(p, t, r, x.context, x.variable, o)
    ensures forall m, s | m in t.reachableCS && s in MethodOf(p, m.meth).statements :: StmtDone(p, t, m, s)
    ensures forall m, s | m in t.reachableCS && s in MethodOf(p, m.meth).statements && s.AssignCast? ::
      Assignable(p, PointsTo(t, CSVariable(m.context, s.from)), s.castType) <= PointsTo(t, CSVariable(m.context, s.to))
    ensures forall e | e in t.callGraph :: e.callee in t.reachableCS && EdgeWired(p, t, e)
  {
    forall x | true ensures Known(t, x) == PointsTo(t, x) {
      assert Pending([], x) == {};
    }
    forall x, i | x in t.pfg && 0 <= i < |t.pfg[x]| && t.pfg[x][i].kind == ArrayStoreEdge
      ensures t.pfg[x][i].to.ArrayIndex?
      ensures Assignable(p, PointsTo(t, x), ArrayIndexType(p, t.pfg[x][i].to.arrayObj)) <= PointsTo(t, t.pfg[x][i].to)
    {
      assert EdgeShape(p, t.pfg[x][i]);
    }
    forall m, s | m in t.reachableCS && s in MethodOf(p, m.meth).statements && s.AssignCast?
      ensures Assignable(p, PointsTo(t, CSVariable(m.context, s.from)), s.castType) <= PointsTo(t, CSVariable(m.context, s.to))
    {
      var from := CSVariable(m.context, s.from);
      assert StmtDone(p, t, m, s);
      var e :| e in OutEdges(t, from) && e.to == CSVariable(m.context, s.to) && e.kind == CastEdge && e.filter == Some(s.castType);
      var i :| 0 <= i < |t.pfg[from]| && t.pfg[from][i] == e;
      assert Pending([], e.to) == {};
    }
  }

  // ---------------------------------------------------------------- two casts between the same variables

  /**
   * A program in which the objects of type 1 and 2 are assignable only to their own type, and the
   * tables after `b = (1) a` with `a` pointing to one object of type 2: the cast lets nothing through.
   */
  function TwoCastsProgram(): Program {
    Program(map[], map[], map[], (o: Obj) => ObjInfo(o, None), ty => OtherType, ty => ty, f => f, (ty, ty') => ty == ty',
            (ty, m) => m, (cs, m) => m, s => 0, 0, (cs, recv, m) => 0, (m, o) => 0, 0, [], false, 0, 0)
  }

  function AfterFirstCast(): Tables {
    Tables(map[CSVariable(0, 0) := {CSObj(0, 2)}], map[CSVariable(0, 0) := [PFGEdge(CSVariable(0, 1), CastEdge, Some(1))]],
           {}, {}, {}, {}, {}, [], [])
  }

  /**
   * Keyed on source, target and kind alone, the graph drops the edge of a second cast `b = (2) a`:
   * the queues stay empty, yet the object of type 2 that `a` points to never reaches `b`.
   */
  lemma SecondCastDroppedByKindKey()
    ensures var p, t := TwoCastsProgram(), AfterFirstCast();
      WithEdgeByKind(p, t, CSVariable(0, 0), CSVariable(0, 1), Some(2), CastEdge) == t &&
      t.pointerEntries == [] &&
      CSObj(0, 2) in Assignable(p, PointsTo(t, CSVariable(0, 0)), 2) &&
      CSObj(0, 2) !in Known(t, CSVariable(0, 1))
  {
    var t := AfterFirstCast();
    assert OutEdges(t, CSVariable(0, 0))[0] == PFGEdge(CSVariable(0, 1), CastEdge, Some(1));
    assert Pending([], CSVariable(0, 1)) == {};
  }

  /** Keyed on the filter too, the second cast gets its own edge, which delivers that object to `b`. */
  lemma SecondCastKeptByFilterKey()
    ensures var p, t := TwoCastsProgram(), AfterFirstCast();
      CSObj(0, 2) in Known(WithEdge(p, t, CSVariable(0, 0), CSVariable(0, 1), Some(2), CastEdge), CSVariable(0, 1))
  {
    var p, t := TwoCastsProgram(), AfterFirstCast();
    assert !HasEdge(t, CSVariable(0, 0), CSVariable(0, 1), Some(2), CastEdge);
    var u := WithEdge(p, t, CSVariable(0, 0), CSVariable(0, 1), Some(2), CastEdge);
    assert PointsTo(t, CSVariable(0, 0)) == {CSObj(0, 2)};
    assert Filtered(p, PointsTo(t, CSVariable(0, 0)), Some(2)) == {CSObj(0, 2)};
    assert u.pointerEntries == [Entry(CSVariable(0, 1), {CSObj(0, 2)})];
    PendingSingle(Entry(CSVariable(0, 1), {CSObj(0, 2)}), CSVariable(0, 1));
  }
}
