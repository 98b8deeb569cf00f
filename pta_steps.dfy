/**
 * The new tables each composite step of the solver produces, as functions of the old tables: a
 * run of edge insertions, the edges a rule or a call edge needs, the effect of the statements of
 * a new method, the entries a call site queues for its receivers, and the seeding of `main`.
 */
module PtaSteps {
  import opened Wrappers
  import opened CallGraphEdge
  import opened PtaProgram
  import opened PtaState
  import opened PtaFacts

  // ---------------------------------------------------------------- runs of edge insertions

  /** The tables after the edges `reqs` have been offered to the graph, first to last. */
  function WithEdges(p: Program, t: Tables, reqs: seq<EdgeRequest>): Tables
    decreases |reqs|
  {
    if reqs == [] then t
    else
      var q := reqs[|reqs| - 1];
      WithEdge(p, WithEdges(p, t, reqs[..|reqs| - 1]), q.from, q.to, q.filter, q.kind)
  }

  lemma WithEdgesSnoc(p: Program, t: Tables, reqs: seq<EdgeRequest>, q: EdgeRequest)
    ensures WithEdges(p, t, reqs + [q]) == WithEdge(p, WithEdges(p, t, reqs), q.from, q.to, q.filter, q.kind)
  {
    assert (reqs + [q])[..|reqs|] == reqs;
  }

  /** Two runs one after the other are the run of both. */
  lemma {:induction false} WithEdgesAppend(p: Program, t: Tables, a: seq<EdgeRequest>, b: seq<EdgeRequest>)
    ensures WithEdges(p, WithEdges(p, t, a), b) == WithEdges(p, t, a + b)
    decreases |b|
  {
    if b == [] {
      assert a + b == a;
    } else {
      var b', q := b[..|b| - 1], b[|b| - 1];
      assert b == b' + [q];
      assert a + b == (a + b') + [q];
      WithEdgesAppend(p, t, a, b');
      WithEdgesSnoc(p, t, a + b', q);
    }
  }

  /** Every edge of `u` at or beyond the end of the out-edges `t` had is one of `reqs`. */
  ghost predicate EdgesFrom(t: Tables, u: Tables, reqs: seq<EdgeRequest>) {
    forall x, i | x in u.pfg && |OutEdges(t, x)| <= i < |u.pfg[x]| ::
      EdgeRequest(x, u.pfg[x][i].to, u.pfg[x][i].filter, u.pfg[x][i].kind) in reqs
  }

  /** The pointer queue of `u` extends that of `t` by replays, through its filter, of the source set of one of `reqs`. */
  ghost predicate ReplaysOf(p: Program, t: Tables, u: Tables, reqs: seq<EdgeRequest>) {
    |t.pointerEntries| <= |u.pointerEntries| && u.pointerEntries[..|t.pointerEntries|] == t.pointerEntries &&
    forall i | |t.pointerEntries| <= i < |u.pointerEntries| ::
      exists q | q in reqs :: u.pointerEntries[i] == Entry(q.to, Filtered(p, PointsTo(t, q.from), q.filter))
  }

  /** A run of insertions loses nothing and changes neither the points-to sets, the call queue nor reachability. */
  lemma {:induction false} WithEdgesKeeps(p: Program, t: Tables, reqs: seq<EdgeRequest>, u: Tables)
    requires u == WithEdges(p, t, reqs)
    ensures Grows(t, u) && u.pts == t.pts && u.callEntries == t.callEntries && SameReach(t, u)
    decreases |reqs|
  {
    if reqs == [] {
      GrowsReflexive(t);
    } else {
      var r', q := reqs[..|reqs| - 1], reqs[|reqs| - 1];
      var u' := WithEdges(p, t, r');
      WithEdgesKeeps(p, t, r', u');
      WithEdgeGrows(p, u', q.from, q.to, q.filter, q.kind);
      GrowsTransitive(t, u', u);
    }
  }

  /** A run of insertions installs each of its edges and nothing grows but the graph. */
  lemma {:induction false} WithEdgesInstalls(p: Program, t: Tables, reqs: seq<EdgeRequest>, u: Tables)
    requires u == WithEdges(p, t, reqs)
    ensures Grows(t, u) && u.pts == t.pts && u.callEntries == t.callEntries && SameReach(t, u)
    ensures forall q | q in reqs :: HasEdge(u, q.from, q.to, q.filter, q.kind)
    decreases |reqs|
  {
    WithEdgesKeeps(p, t, reqs, u);
    if reqs != [] {
      var r', q := reqs[..|reqs| - 1], reqs[|reqs| - 1];
      var u' := WithEdges(p, t, r');
      WithEdgesInstalls(p, t, r', u');
      WithEdgeGrows(p, u', q.from, q.to, q.filter, q.kind);
      WithEdgeHasEdge(p, u', q.from, q.to, q.filter, q.kind);
      forall q' | q' in reqs ensures HasEdge(u, q'.from, q'.to, q'.filter, q'.kind) {
        if q' != q {
          assert q' in r' by { assert reqs == r' + [q]; }
          HasEdgeGrows(u', u, q'.from, q'.to, q'.filter, q'.kind);
        }
      }
    }
  }

  /** A run of insertions adds no edge but its own, and queues nothing but replays along them. */
  lemma {:induction false} WithEdgesOnlyAdds(p: Program, t: Tables, reqs: seq<EdgeRequest>)
    ensures EdgesFrom(t, WithEdges(p, t, reqs), reqs) && ReplaysOf(p, t, WithEdges(p, t, reqs), reqs)
    decreases |reqs|
  {
    var u := WithEdges(p, t, reqs);
    if reqs != [] {
      var r', q := reqs[..|reqs| - 1], reqs[|reqs| - 1];
      assert reqs == r' + [q];
      var u' := WithEdges(p, t, r');
      WithEdgesOnlyAdds(p, t, r');
      WithEdgesInstalls(p, t, r', u');
      forall x, i | x in u.pfg && |OutEdges(t, x)| <= i < |u.pfg[x]|
        ensures EdgeRequest(x, u.pfg[x][i].to, u.pfg[x][i].filter, u.pfg[x][i].kind) in reqs
      {
        if !(x == q.from && i == |OutEdges(u', x)| && !HasEdge(u', q.from, q.to, q.filter, q.kind)) {
          assert x in u'.pfg && i < |u'.pfg[x]| && u.pfg[x][i] == u'.pfg[x][i];
        }
      }
      forall i | |t.pointerEntries| <= i < |u.pointerEntries|
        ensures exists q' | q' in reqs :: u.pointerEntries[i] == Entry(q'.to, Filtered(p, PointsTo(t, q'.from), q'.filter))
      {
        if i >= |u'.pointerEntries| {
          assert u.pointerEntries[i] == Entry(q.to, Filtered(p, PointsTo(t, q.from), q.filter));
        } else {
          assert u.pointerEntries[i] == u'.pointerEntries[i];
        }
      }
    }
  }

  // ---------------------------------------------------------------- structural rules

  /** `order` lists every object of `d` exactly once. */
  ghost predicate Enumerates(order: seq<CSObj>, d: set<CSObj>) {
    (forall o :: o in order <==> o in d) && forall i, j | 0 <= i < j < |order| :: order[i] != order[j]
  }

  lemma EnumeratesSnoc(order: seq<CSObj>, d: set<CSObj>, rest: set<CSObj>, o: CSObj)
    requires rest <= d && o in rest && Enumerates(order, d - rest)
    ensures Enumerates(order + [o], d - (rest - {o}))
  {
    assert o !in order;
  }

  /** The edges statement `k` of rule `r` on `x` in context `c` needs, one per object of `order`, in that order. */
  function RuleEdges(p: Program, r: Rule, c: Context, x: Variable, k: nat, order: seq<CSObj>): seq<EdgeRequest>
    requires r != CallRule && k < RuleCount(p, r, x)
  {
    seq(|order|, i requires 0 <= i < |order| => RuleEdge(p, r, c, x, order[i], k))
  }

  /** The edges of the first `|orders|` statements of rule `r`, statement `k` for the objects `orders[k]`. */
  function AllRuleEdges(p: Program, r: Rule, c: Context, x: Variable, orders: seq<seq<CSObj>>): seq<EdgeRequest>
    requires r != CallRule && |orders| <= RuleCount(p, r, x)
    decreases |orders|
  {
    if orders == [] then []
    else AllRuleEdges(p, r, c, x, orders[..|orders| - 1]) + RuleEdges(p, r, c, x, |orders| - 1, orders[|orders| - 1])
  }

  lemma RuleEdgesSnoc(p: Program, r: Rule, c: Context, x: Variable, k: nat, order: seq<CSObj>, o: CSObj)
    requires r != CallRule && k < RuleCount(p, r, x)
    ensures RuleEdges(p, r, c, x, k, order + [o]) == RuleEdges(p, r, c, x, k, order) + [RuleEdge(p, r, c, x, o, k)]
  {
  }

  lemma AllRuleEdgesSnoc(p: Program, r: Rule, c: Context, x: Variable, orders: seq<seq<CSObj>>, order: seq<CSObj>)
    requires r != CallRule && |orders| < RuleCount(p, r, x)
    ensures AllRuleEdges(p, r, c, x, orders + [order]) ==
      AllRuleEdges(p, r, c, x, orders) + RuleEdges(p, r, c, x, |orders|, order)
  {
    assert (orders + [order])[..|orders|] == orders;
  }

  // ---------------------------------------------------------------- receiver-dependent calls

  /** The tables with the call edges `calls` and the pointer entries `entries` appended to their queues. */
  function Queued(t: Tables, calls: seq<CallEdge>, entries: seq<Entry>): Tables {
    t.(callEntries := t.callEntries + calls, pointerEntries := t.pointerEntries + entries)
  }

  lemma QueuedNothing(t: Tables)
    ensures Queued(t, [], []) == t
  {
    assert t.callEntries + [] == t.callEntries && t.pointerEntries + [] == t.pointerEntries;
  }

  /** Queuing work only grows the tables and changes nothing else. */
  lemma QueuedGrows(t: Tables, calls: seq<CallEdge>, entries: seq<Entry>)
    ensures var u := Queued(t, calls, entries);
      Grows(t, u) && SameReach(t, u) && u.pts == t.pts && u.pfg == t.pfg
  {
    forall x ensures Known(t, x) <= Known(Queued(t, calls, entries), x) {
      PendingAppend(t.pointerEntries, entries, x);
    }
  }

  lemma QueuedTwice(t: Tables, c1: seq<CallEdge>, e1: seq<Entry>, c2: seq<CallEdge>, e2: seq<Entry>)
    ensures Queued(Queued(t, c1, e1), c2, e2) == Queued(t, c1 + c2, e1 + e2)
  {
    assert (t.callEntries + c1) + c2 == t.callEntries + (c1 + c2);
    assert (t.pointerEntries + e1) + e2 == t.pointerEntries + (e1 + e2);
  }

  /** The call edge the receiver-dependent call `cs` in context `c` contributes for receiver `o`. */
  function DispatchEdge(p: Program, c: Context, cs: CallSite, o: CSObj): CallEdge
    requires Dispatchable(cs)
  {
    InstanceCallEdge(p, c, cs, o, ResolveCallee(p, o.obj, cs).value)
  }

  /** The entry that seeds the `this` of the callee of `e` with exactly `o`. */
  function ThisEntry(p: Program, e: CallEdge, o: CSObj): Entry {
    Entry(CSVariable(e.callee.context, MethodOf(p, e.callee.meth).thisVar), {o})
  }

  /** The call edges queued for the receivers `order` of `cs`, in that order. */
  function DispatchEdges(p: Program, c: Context, cs: CallSite, order: seq<CSObj>): seq<CallEdge>
    requires Dispatchable(cs) || order == []
  {
    seq(|order|, i requires 0 <= i < |order| => DispatchEdge(p, c, cs, order[i]))
  }

  /** The `this` entries queued for the receivers `order` of `cs`, in that order. */
  function ThisEntries(p: Program, c: Context, cs: CallSite, order: seq<CSObj>): seq<Entry>
    requires Dispatchable(cs) || order == []
  {
    seq(|order|, i requires 0 <= i < |order| => ThisEntry(p, DispatchEdge(p, c, cs, order[i]), order[i]))
  }

  ghost predicate DispatchableOrEmpty(calls: seq<CallSite>, orders: seq<seq<CSObj>>) {
    |orders| == |calls| && forall k | 0 <= k < |calls| :: Dispatchable(calls[k]) || orders[k] == []
  }

  /** The call edges queued for the calls `calls`, call `k` for the receivers `orders[k]`. */
  function CallsDispatchEdges(p: Program, c: Context, calls: seq<CallSite>, orders: seq<seq<CSObj>>): seq<CallEdge>
    requires DispatchableOrEmpty(calls, orders)
    decreases |calls|
  {
    if calls == [] then []
    else
      CallsDispatchEdges(p, c, calls[..|calls| - 1], orders[..|orders| - 1]) +
      DispatchEdges(p, c, calls[|calls| - 1], orders[|orders| - 1])
  }

  /** The `this` entries queued for the calls `calls`, call `k` for the receivers `orders[k]`. */
  function CallsThisEntries(p: Program, c: Context, calls: seq<CallSite>, orders: seq<seq<CSObj>>): seq<Entry>
    requires DispatchableOrEmpty(calls, orders)
    decreases |calls|
  {
    if calls == [] then []
    else
      CallsThisEntries(p, c, calls[..|calls| - 1], orders[..|orders| - 1]) +
      ThisEntries(p, c, calls[|calls| - 1], orders[|orders| - 1])
  }

  /** Dispatching one more receiver `o` appends its call edge and its `this` entry. */
  lemma DispatchSnoc(p: Program, t0: Tables, c: Context, cs: CallSite, order: seq<CSObj>, o: CSObj)
    requires Dispatchable(cs)
    ensures var e := DispatchEdge(p, c, cs, o);
      Queued(Queued(t0, DispatchEdges(p, c, cs, order), ThisEntries(p, c, cs, order)), [e], [ThisEntry(p, e, o)]) ==
      Queued(t0, DispatchEdges(p, c, cs, order + [o]), ThisEntries(p, c, cs, order + [o]))
  {
    var e := DispatchEdge(p, c, cs, o);
    assert DispatchEdges(p, c, cs, order + [o]) == DispatchEdges(p, c, cs, order) + [e];
    assert ThisEntries(p, c, cs, order + [o]) == ThisEntries(p, c, cs, order) + [ThisEntry(p, e, o)];
    QueuedTwice(t0, DispatchEdges(p, c, cs, order), ThisEntries(p, c, cs, order), [e], [ThisEntry(p, e, o)]);
  }

  /** Processing call `k` for the receivers `order` appends what it queues to what the earlier calls queued. */
  lemma CallsDispatchSnoc(p: Program, t0: Tables, c: Context, calls: seq<CallSite>, orders: seq<seq<CSObj>>, k: nat,
                          order: seq<CSObj>)
    requires k < |calls| && DispatchableOrEmpty(calls[..k], orders) && (Dispatchable(calls[k]) || order == [])
    ensures DispatchableOrEmpty(calls[..k + 1], orders + [order])
    ensures Queued(Queued(t0, CallsDispatchEdges(p, c, calls[..k], orders), CallsThisEntries(p, c, calls[..k], orders)),
                   DispatchEdges(p, c, calls[k], order), ThisEntries(p, c, calls[k], order)) ==
      Queued(t0, CallsDispatchEdges(p, c, calls[..k + 1], orders + [order]),
             CallsThisEntries(p, c, calls[..k + 1], orders + [order]))
  {
    assert calls[..k + 1][..k] == calls[..k];
    assert (orders + [order])[..k] == orders;
    QueuedTwice(t0, CallsDispatchEdges(p, c, calls[..k], orders), CallsThisEntries(p, c, calls[..k], orders),
                DispatchEdges(p, c, calls[k], order), ThisEntries(p, c, calls[k], order));
  }

  /** The end of the call rule's loop: with every call site done, the rule is closed and only queues grew. */
  lemma CallLoopPassed(p: Program, t0: Tables, u: Tables, v: Pointer, d: set<CSObj>, open: set<Rule>,
                       orders: seq<seq<CSObj>>)
    requires v.CSVariable? && InvariantExcept(p, u, v, d, open)
    requires CallsDone(p, u, v.context, VarOf(p, v.variable).calls, |VarOf(p, v.variable).calls|, d)
    requires DispatchableOrEmpty(VarOf(p, v.variable).calls, orders)
    requires u == Queued(t0, CallsDispatchEdges(p, v.context, VarOf(p, v.variable).calls, orders),
                         CallsThisEntries(p, v.context, VarOf(p, v.variable).calls, orders))
    ensures InvariantExcept(p, u, v, d, open - {CallRule}) && Grows(t0, u) && SameReach(t0, u)
    ensures u.pts == t0.pts && u.pfg == t0.pfg
  {
    QueuedGrows(t0, CallsDispatchEdges(p, v.context, VarOf(p, v.variable).calls, orders),
                CallsThisEntries(p, v.context, VarOf(p, v.variable).calls, orders));
    CallRuleCloses(p, u, v, d, open);
  }

  // ---------------------------------------------------------------- statements of a new method

  /**
   * The tables after statement `s` of the context-sensitive method `m` has been processed: an
   * allocation queues its object for its variable, an assignment, a cast or a static field access
   * offers its edge (a cast filtered by its type), a static call queues its call edge.
   */
  function StmtEffect(p: Program, t: Tables, m: CSMethod, s: Stmt): Tables {
    var c := m.context;
    match s
    case Allocation(v, _) =>
      t.(pointerEntries := t.pointerEntries + [Entry(CSVariable(c, v), {CSObj(p.selectHeapContext(m, p.heapObj(s)), p.heapObj(s))})])
    case Assign(to, from) => WithEdge(p, t, CSVariable(c, from), CSVariable(c, to), None, LocalAssignEdge)
    case AssignCast(to, from, castType) => WithEdge(p, t, CSVariable(c, from), CSVariable(c, to), Some(castType), CastEdge)
    case StaticLoad(to, f) => WithEdge(p, t, StaticField(f), CSVariable(c, to), None, StaticLoadEdge)
    case StaticStore(f, from) => WithEdge(p, t, CSVariable(c, from), StaticField(f), None, StaticStoreEdge)
    case Call(cs) => if cs.kind.Static? then t.(callEntries := t.callEntries + [StaticCallEdge(p, m, cs)]) else t
    case _ => t
  }

  /** The tables after the statements `stmts` of `m` have been processed, first to last. */
  function StmtsEffect(p: Program, t: Tables, m: CSMethod, stmts: seq<Stmt>): Tables
    decreases |stmts|
  {
    if stmts == [] then t
    else StmtEffect(p, StmtsEffect(p, t, m, stmts[..|stmts| - 1]), m, stmts[|stmts| - 1])
  }

  /** A statement only adds: the tables grow, reachability stays, and no points-to set changes. */
  lemma StmtEffectGrows(p: Program, t: Tables, m: CSMethod, s: Stmt, u: Tables)
    requires u == StmtEffect(p, t, m, s)
    ensures Grows(t, u) && SameReach(t, u) && u.pts == t.pts
  {
    var c := m.context;
    match s
    case Allocation(v, _) =>
      var e := Entry(CSVariable(c, v), {CSObj(p.selectHeapContext(m, p.heapObj(s)), p.heapObj(s))});
      assert u == Queued(t, [], [e]);
      QueuedGrows(t, [], [e]);
    case Assign(to, from) => WithEdgeGrows(p, t, CSVariable(c, from), CSVariable(c, to), None, LocalAssignEdge);
    case AssignCast(to, from, castType) =>
      WithEdgeGrows(p, t, CSVariable(c, from), CSVariable(c, to), Some(castType), CastEdge);
    case StaticLoad(to, f) => WithEdgeGrows(p, t, StaticField(f), CSVariable(c, to), None, StaticLoadEdge);
    case StaticStore(f, from) => WithEdgeGrows(p, t, CSVariable(c, from), StaticField(f), None, StaticStoreEdge);
    case Call(cs) =>
      if cs.kind.Static? {
        assert u == Queued(t, [StaticCallEdge(p, m, cs)], []);
        QueuedGrows(t, [StaticCallEdge(p, m, cs)], []);
      } else {
        GrowsReflexive(t);
      }
    case InstanceLoad(_, _, _) => GrowsReflexive(t);
    case InstanceStore(_, _, _) => GrowsReflexive(t);
    case ArrayLoad(_, _) => GrowsReflexive(t);
    case ArrayStore(_, _) => GrowsReflexive(t);
  }

  /** A run of statements only adds, as each of them does. */
  lemma {:induction false} StmtsEffectGrows(p: Program, t: Tables, m: CSMethod, stmts: seq<Stmt>, u: Tables)
    requires u == StmtsEffect(p, t, m, stmts)
    ensures Grows(t, u) && SameReach(t, u) && u.pts == t.pts
    decreases |stmts|
  {
    if stmts == [] {
      GrowsReflexive(t);
    } else {
      var u' := StmtsEffect(p, t, m, stmts[..|stmts| - 1]);
      StmtsEffectGrows(p, t, m, stmts[..|stmts| - 1], u');
      StmtEffectGrows(p, u', m, stmts[|stmts| - 1], u);
      GrowsTransitive(t, u', u);
    }
  }

  /** A processed statement is done in the tables it produces. */
  lemma StmtEffectDone(p: Program, t: Tables, m: CSMethod, s: Stmt, u: Tables)
    requires u == StmtEffect(p, t, m, s)
    ensures StmtDone(p, u, m, s)
  {
    var c := m.context;
    match s
    case Allocation(v, _) =>
      var e := Entry(CSVariable(c, v), {CSObj(p.selectHeapContext(m, p.heapObj(s)), p.heapObj(s))});
      PendingAppend(t.pointerEntries, [e], CSVariable(c, v));
      PendingSingle(e, CSVariable(c, v));
    case Assign(to, from) => WithEdgeHasEdge(p, t, CSVariable(c, from), CSVariable(c, to), None, LocalAssignEdge);
    case AssignCast(to, from, castType) =>
      WithEdgeHasEdge(p, t, CSVariable(c, from), CSVariable(c, to), Some(castType), CastEdge);
    case StaticLoad(to, f) => WithEdgeHasEdge(p, t, StaticField(f), CSVariable(c, to), None, StaticLoadEdge);
    case StaticStore(f, from) => WithEdgeHasEdge(p, t, CSVariable(c, from), StaticField(f), None, StaticStoreEdge);
    case _ =>
  }

  /** After a run of statements every one of them is done: later statements only add. */
  lemma {:induction false} StmtsEffectDone(p: Program, t: Tables, m: CSMethod, stmts: seq<Stmt>, u: Tables)
    requires u == StmtsEffect(p, t, m, stmts)
    ensures forall j | 0 <= j < |stmts| :: StmtDone(p, u, m, stmts[j])
    decreases |stmts|
  {
    if stmts != [] {
      var n := |stmts| - 1;
      var u' := StmtsEffect(p, t, m, stmts[..n]);
      StmtsEffectDone(p, t, m, stmts[..n], u');
      StmtEffectGrows(p, u', m, stmts[n], u);
      StmtEffectDone(p, u', m, stmts[n], u);
      forall j | 0 <= j < n ensures StmtDone(p, u, m, stmts[j]) {
        assert stmts[..n][j] == stmts[j];
        StmtDoneGrows(p, u', u, m, stmts[j]);
      }
    }
  }

  /** Processing statement `k` after the first `k` gives the tables of the first `k + 1`. */
  lemma StmtsEffectSnoc(p: Program, t: Tables, m: CSMethod, stmts: seq<Stmt>, k: nat, before: Tables, after: Tables)
    requires k < |stmts| && before == StmtsEffect(p, t, m, stmts[..k]) && after == StmtEffect(p, before, m, stmts[k])
    ensures after == StmtsEffect(p, t, m, stmts[..k + 1])
  {
    assert stmts[..k + 1][..k] == stmts[..k];
  }

  // ---------------------------------------------------------------- call edges

  /** The edge that passes argument `i` of `cs`, from context `c`, into the matching parameter of `callee`. */
  function ArgEdge(p: Program, c: Context, cs: CallSite, callee: CSMethod, i: nat): EdgeRequest
    requires i < |cs.args| && cs.args[i].Some? && Param(MethodOf(p, callee.meth), i).Some?
  {
    EdgeRequest(CSVariable(c, cs.args[i].value), CSVariable(callee.context, Param(MethodOf(p, callee.meth), i).value),
                None, ParameterPassingEdge)
  }

  /** The parameter-passing edges of the first `n` arguments of `cs`: one per present argument that has a parameter. */
  function ArgEdges(p: Program, c: Context, cs: CallSite, callee: CSMethod, n: nat): seq<EdgeRequest>
    requires n <= |cs.args|
    decreases n
  {
    if n == 0 then []
    else
      ArgEdges(p, c, cs, callee, n - 1) +
      if cs.args[n - 1].Some? && Param(MethodOf(p, callee.meth), n - 1).Some? then [ArgEdge(p, c, cs, callee, n - 1)] else []
  }

  lemma ArgEdgesNext(p: Program, c: Context, cs: CallSite, callee: CSMethod, i: nat)
    requires i < |cs.args|
    ensures cs.args[i].Some? && Param(MethodOf(p, callee.meth), i).Some? ==>
      ArgEdges(p, c, cs, callee, i + 1) == ArgEdges(p, c, cs, callee, i) + [ArgEdge(p, c, cs, callee, i)]
    ensures !(cs.args[i].Some? && Param(MethodOf(p, callee.meth), i).Some?) ==>
      ArgEdges(p, c, cs, callee, i + 1) == ArgEdges(p, c, cs, callee, i)
  {
    assert ArgEdges(p, c, cs, callee, i) + [] == ArgEdges(p, c, cs, callee, i);
  }

  /** The argument edges are exactly those of the present arguments below `n` that have a parameter. */
  lemma {:induction false} ArgEdgesMembers(p: Program, c: Context, cs: CallSite, callee: CSMethod, n: nat, q: EdgeRequest)
    requires n <= |cs.args|
    ensures q in ArgEdges(p, c, cs, callee, n) <==>
      exists i | 0 <= i < n :: cs.args[i].Some? && Param(MethodOf(p, callee.meth), i).Some? && q == ArgEdge(p, c, cs, callee, i)
    decreases n
  {
    if n > 0 {
      ArgEdgesMembers(p, c, cs, callee, n - 1, q);
    }
  }

  /** Argument `i` of `cs` is present but `callee` has no parameter at that index. */
  predicate MissingParameterAt(cs: CallSite, callee: MethodInfo, i: int) {
    0 <= i < |cs.args| && cs.args[i].Some? && Param(callee, i).None?
  }

  /**
   * The argument loop stopping at the first argument `i` without a parameter: the loop has
   * installed the edges before `i` and, as those only add edges, nothing else has changed.
   */
  lemma ArgEdgesFailAt(p: Program, t: Tables, u: Tables, c: Context, cs: CallSite, callee: CSMethod, i: nat)
    requires MissingParameterAt(cs, MethodOf(p, callee.meth), i)
    requires u == WithEdges(p, t, ArgEdges(p, c, cs, callee, i))
    ensures exists j | 0 <= j < |cs.args| :: MissingParameterAt(cs, MethodOf(p, callee.meth), j)
    ensures SameReach(t, u) && u.pts == t.pts
  {
    WithEdgesInstalls(p, t, ArgEdges(p, c, cs, callee, i), u);
  }

  /** When every present argument has a parameter, the argument edges pass each of them. */
  lemma ArgEdgesPassAll(p: Program, t: Tables, u: Tables, c: Context, cs: CallSite, callee: CSMethod)
    requires forall j | 0 <= j < |cs.args| :: !MissingParameterAt(cs, MethodOf(p, callee.meth), j)
    requires u == WithEdges(p, t, ArgEdges(p, c, cs, callee, |cs.args|))
    ensures ArgsPassed(p, u, c, cs, callee, |cs.args|)
    ensures Grows(t, u) && SameReach(t, u) && u.pts == t.pts
  {
    WithEdgesInstalls(p, t, ArgEdges(p, c, cs, callee, |cs.args|), u);
    forall j | 0 <= j < |cs.args| && cs.args[j].Some?
      ensures Param(MethodOf(p, callee.meth), j).Some? && HasEdge(u, CSVariable(c, cs.args[j].value),
                      CSVariable(callee.context, Param(MethodOf(p, callee.meth), j).value), None, ParameterPassingEdge)
    {
      assert !MissingParameterAt(cs, MethodOf(p, callee.meth), j);
      ArgEdgesMembers(p, c, cs, callee, |cs.args|, ArgEdge(p, c, cs, callee, j));
    }
  }

  /** The return edges from the variables `rets` of a callee in `calleeContext` into `lhs`, in order. */
  function ReturnEdges(calleeContext: Context, rets: seq<Variable>, lhs: Pointer): seq<EdgeRequest> {
    seq(|rets|, i requires 0 <= i < |rets| => EdgeRequest(CSVariable(calleeContext, rets[i]), lhs, None, ReturnEdge))
  }

  lemma ReturnEdgesSnoc(calleeContext: Context, rets: seq<Variable>, lhs: Pointer, k: nat)
    requires k < |rets|
    ensures ReturnEdges(calleeContext, rets[..k + 1], lhs) ==
      ReturnEdges(calleeContext, rets[..k], lhs) + [EdgeRequest(CSVariable(calleeContext, rets[k]), lhs, None, ReturnEdge)]
  {
  }

  /** The return edges of a call at `cs` from context `c` to `callee`: none without a left-hand side. */
  function ResultEdges(p: Program, c: Context, cs: CallSite, callee: CSMethod): seq<EdgeRequest> {
    if cs.lhs.Some? then ReturnEdges(callee.context, MethodOf(p, callee.meth).returnVars, CSVariable(c, cs.lhs.value))
    else []
  }

  /** All the flow edges the call edge `e` needs: its arguments, then its results. */
  function WiringEdges(p: Program, e: CallEdge): seq<EdgeRequest> {
    var cs := e.callSite.callSite;
    ArgEdges(p, e.callSite.context, cs, e.callee, |cs.args|) + ResultEdges(p, e.callSite.context, cs, e.callee)
  }

  // ---------------------------------------------------------------- main

  /** The entries seeding `main`: the argument array's elements, then its first parameter when it has one. */
  function MainEntries(p: Program): seq<Entry> {
    var c := p.defaultContext;
    var param0 := Param(MethodOf(p, p.mainMethod), 0);
    [Entry(ArrayIndex(CSObj(c, p.mainArgs)), {CSObj(c, p.mainArgsElem)})] +
    if param0.Some? then [Entry(CSVariable(c, param0.value), {CSObj(c, p.mainArgs)})] else []
  }

  /**
   * Seeding `main` only adds: reachability is as before, and the argument array's elements
   * are known to its index pointer, and the array to the first parameter when there is one.
   */
  lemma MainEntriesSeeded(p: Program, t: Tables, u: Tables)
    requires Reached(p, t) && u == Queued(t, [], MainEntries(p))
    ensures Reached(p, u) && Grows(t, u) && SameReach(t, u)
    ensures CSObj(p.defaultContext, p.mainArgsElem) in Known(u, ArrayIndex(CSObj(p.defaultContext, p.mainArgs)))
    ensures Param(MethodOf(p, p.mainMethod), 0).Some? ==>
      CSObj(p.defaultContext, p.mainArgs) in
        Known(u, CSVariable(p.defaultContext, Param(MethodOf(p, p.mainMethod), 0).value))
  {
    var c := p.defaultContext;
    QueuedGrows(t, [], MainEntries(p));
    ReachedGrows(p, t, u);
    var e1 := Entry(ArrayIndex(CSObj(c, p.mainArgs)), {CSObj(c, p.mainArgsElem)});
    var rest := MainEntries(p)[1..];
    assert MainEntries(p) == [e1] + rest;
    assert u.pointerEntries == (t.pointerEntries + [e1]) + rest;
    PendingAppend(t.pointerEntries + [e1], rest, e1.pointer);
    PendingAppend(t.pointerEntries, [e1], e1.pointer);
    PendingSingle(e1, e1.pointer);
    var param0 := Param(MethodOf(p, p.mainMethod), 0);
    if param0.Some? {
      var e2 := Entry(CSVariable(c, param0.value), {CSObj(c, p.mainArgs)});
      assert rest == [e2];
      PendingAppend(t.pointerEntries + [e1], [e2], e2.pointer);
      PendingSingle(e2, e2.pointer);
    }
  }
}
