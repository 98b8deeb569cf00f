/**
 * The tables of the points-to solver as one value, the effect of its two primitive updates
 * (propagation of a set and insertion of a pointer-flow edge), and the invariants the solver keeps
 * over them.
 */
module PtaState {
  import opened Wrappers
  import opened CallGraphEdge
  import opened PtaProgram

  /** The kinds of pointer-flow edge. */
  datatype FlowKind =
    | LocalAssignEdge | CastEdge | InstanceLoadEdge | InstanceStoreEdge | ArrayLoadEdge
    | ArrayStoreEdge | StaticLoadEdge | StaticStoreEdge | ParameterPassingEdge | ReturnEdge

  /** An out-edge of the pointer-flow graph, with its optional type filter. */
  datatype PFGEdge = PFGEdge(to: Pointer, kind: FlowKind, filter: Option<Type>)

  /** A pending propagation: the objects still to be delivered to a pointer. */
  datatype Entry = Entry(pointer: Pointer, objs: set<CSObj>)

  /**
   * The solver state: points-to sets, out-edges of the pointer-flow graph (in insertion order),
   * the call graph with its entry and reachable methods, the reachable methods, the initialized
   * classes and the two work-list queues.
   */
  datatype Tables = Tables(
    pts: map<Pointer, set<CSObj>>,
    pfg: map<Pointer, seq<PFGEdge>>,
    callGraph: set<CallEdge>,
    entryMethods: set<CSMethod>,
    reachableCS: set<CSMethod>,
    reachableMethods: set<Method>,
    initializedClasses: set<Type>,
    pointerEntries: seq<Entry>,
    callEntries: seq<CallEdge>)

  function PointsTo(t: Tables, x: Pointer): set<CSObj> {
    if x in t.pts then t.pts[x] else {}
  }

  function OutEdges(t: Tables, x: Pointer): seq<PFGEdge> {
    if x in t.pfg then t.pfg[x] else []
  }

  /** The objects the queue `q` still has to deliver to `x`. */
  ghost function Pending(q: seq<Entry>, x: Pointer): set<CSObj> {
    set e, o | e in q && e.pointer == x && o in e.objs :: o
  }

  /** What `x` points to or is going to point to once the pointer queue is drained. */
  ghost function Known(t: Tables, x: Pointer): set<CSObj> {
    PointsTo(t, x) + Pending(t.pointerEntries, x)
  }

  /** The graph holds the edge `from -> to` of the given kind and filter (edges are keyed this way). */
  predicate HasEdge(t: Tables, from: Pointer, to: Pointer, filter: Option<Type>, kind: FlowKind) {
    exists e | e in OutEdges(t, from) :: e.to == to && e.kind == kind && e.filter == filter
  }

  /** The graph holds an edge `from -> to` of the given kind, whatever its filter. */
  predicate HasEdgeOfKind(t: Tables, from: Pointer, to: Pointer, kind: FlowKind) {
    exists e | e in OutEdges(t, from) :: e.to == to && e.kind == kind
  }

  /** A call edge is in the call graph or waiting in the call-edge queue. */
  ghost predicate CallKnown(t: Tables, e: CallEdge) {
    e in t.callGraph || e in t.callEntries
  }

  /** The objects of `s` whose type can be assigned to `ty`. */
  function Assignable(p: Program, s: set<CSObj>, ty: Type): (r: set<CSObj>)
    ensures r <= s
    ensures forall o | o in s :: o in r <==> p.canAssign(ObjType(p, o), ty)
  {
    set o | o in s && p.canAssign(ObjType(p, o), ty)
  }

  /** The part of `s` an edge with the given filter lets through. */
  function Filtered(p: Program, s: set<CSObj>, filter: Option<Type>): set<CSObj> {
    match filter
    case None => s
    case Some(ty) => Assignable(p, s, ty)
  }

  /** The entries a non-empty `diff` sends along `edges`, one per edge, in edge order. */
  function OutEntries(p: Program, edges: seq<PFGEdge>, diff: set<CSObj>): seq<Entry> {
    seq(|edges|, i requires 0 <= i < |edges| => Entry(edges[i].to, Filtered(p, diff, edges[i].filter)))
  }

  /**
   * The tables after the entry `(x, s)` has been taken off the queue of `t` and propagated:
   * `x` gains `s`, and the new objects travel along every out-edge of `x`.
   */
  function Propagated(p: Program, t: Tables, x: Pointer, s: set<CSObj>): Tables {
    var diff := s - PointsTo(t, x);
    t.(pts := t.pts[x := PointsTo(t, x) + s],
       pointerEntries :=
         if diff == {} then t.pointerEntries
         else t.pointerEntries + OutEntries(p, OutEdges(t, x), diff))
  }

  /**
   * The tables after the edge `from -> to` of `kind` with `filter` has been offered to the graph:
   * a duplicate leaves everything as it was; a new edge is appended and replays the current set
   * of `from`, through the filter.
   */
  function WithEdge(p: Program, t: Tables, from: Pointer, to: Pointer, filter: Option<Type>, kind: FlowKind): Tables {
    if HasEdge(t, from, to, filter, kind) then t
    else
      var replay := Filtered(p, PointsTo(t, from), filter);
      t.(pfg := t.pfg[from := OutEdges(t, from) + [PFGEdge(to, kind, filter)]],
         pointerEntries := if replay == {} then t.pointerEntries else t.pointerEntries + [Entry(to, replay)])
  }

  /**
   * `WithEdge` for a graph that keys its edges on source, target and kind alone and so drops an
   * edge that differs from an existing one only in its filter.
   */
  function WithEdgeByKind(p: Program, t: Tables, from: Pointer, to: Pointer, filter: Option<Type>, kind: FlowKind): Tables {
    if HasEdgeOfKind(t, from, to, kind) then t
    else
      var replay := Filtered(p, PointsTo(t, from), filter);
      t.(pfg := t.pfg[from := OutEdges(t, from) + [PFGEdge(to, kind, filter)]],
         pointerEntries := if replay == {} then t.pointerEntries else t.pointerEntries + [Entry(to, replay)])
  }

  /** Nothing is ever lost: sets, edges, call edges and reachability only grow. */
  ghost predicate Grows(t: Tables, u: Tables) {
    (forall x | x in t.pts :: t.pts[x] <= PointsTo(u, x)) &&
    (forall x | x in t.pfg :: x in u.pfg && t.pfg[x] <= u.pfg[x]) &&
    (forall x :: Known(t, x) <= Known(u, x)) &&
    t.callGraph <= u.callGraph &&
    (forall e | e in t.callEntries :: CallKnown(u, e)) &&
    t.entryMethods <= u.entryMethods &&
    t.reachableCS <= u.reachableCS &&
    t.reachableMethods <= u.reachableMethods &&
    t.initializedClasses <= u.initializedClasses
  }

  /** Two states agree on the call graph, the entry and reachable methods and the initialized classes. */
  predicate SameReach(t: Tables, u: Tables) {
    u.callGraph == t.callGraph && u.entryMethods == t.entryMethods && u.reachableCS == t.reachableCS &&
    u.reachableMethods == t.reachableMethods && u.initializedClasses == t.initializedClasses
  }

  /** Array stores carry the element type of their array as filter, casts a filter, others none. */
  predicate EdgeShape(p: Program, e: PFGEdge) {
    match e.kind
    case ArrayStoreEdge => e.to.ArrayIndex? && e.filter == Some(ArrayIndexType(p, e.to.arrayObj))
    case CastEdge => e.filter.Some?
    case _ => e.filter.None?
  }

  ghost predicate EdgeShapes(p: Program, t: Tables) {
    forall x, i | x in t.pfg && 0 <= i < |t.pfg[x]| :: EdgeShape(p, t.pfg[x][i])
  }

  /** Every edge has carried (or the queue will carry) the filtered set of its source to its target. */
  ghost predicate FlowClosed(p: Program, t: Tables) {
    forall x, i | x in t.pfg && 0 <= i < |t.pfg[x]| ::
      Filtered(p, PointsTo(t, x), t.pfg[x][i].filter) <= Known(t, t.pfg[x][i].to)
  }

  /** The transfer rules that react to an object reaching a variable. */
  datatype Rule = StoreRule | LoadRule | ArrayStoreRule | ArrayLoadRule | CallRule

  const AllRules: set<Rule> := {StoreRule, LoadRule, ArrayStoreRule, ArrayLoadRule, CallRule}

  /** The structural rules in the order `solve` applies them. */
  const StructuralRules: seq<Rule> := [StoreRule, LoadRule, ArrayStoreRule, ArrayLoadRule]

  /** The structural rules applied before the `i`-th. */
  ghost function RulesBefore(i: nat): set<Rule>
    requires i <= |StructuralRules|
  {
    set j | 0 <= j < i :: StructuralRules[j]
  }

  /** How many statements of a variable a rule reacts to. */
  function RuleCount(p: Program, r: Rule, x: Variable): nat {
    var info := VarOf(p, x);
    match r
    case StoreRule => |info.instanceStores|
    case LoadRule => |info.instanceLoads|
    case ArrayStoreRule => |info.arrayStores|
    case ArrayLoadRule => |info.arrayLoads|
    case CallRule => |info.calls|
  }

  /** A pointer-flow edge to be inserted, with its filter. */
  datatype EdgeRequest = EdgeRequest(from: Pointer, to: Pointer, filter: Option<Type>, kind: FlowKind)

  /**
   * The edge the `k`-th statement of a structural rule needs once object `o` reaches variable `x`
   * in context `c`: `x.f = y` flows from `y` into `o.f`, `y = x.f` from `o.f` into `y`, and array
   * accesses likewise through the element pointer of `o`, stores guarded by its element type.
   */
  function RuleEdge(p: Program, r: Rule, c: Context, x: Variable, o: CSObj, k: nat): (e: EdgeRequest)
    requires r != CallRule && k < RuleCount(p, r, x)
    ensures EdgeShape(p, PFGEdge(e.to, e.kind, e.filter))
  {
    var info := VarOf(p, x);
    match r
    case StoreRule =>
      EdgeRequest(CSVariable(c, info.instanceStores[k].peer), InstanceField(o, info.instanceStores[k].field),
                  None, InstanceStoreEdge)
    case LoadRule =>
      EdgeRequest(InstanceField(o, info.instanceLoads[k].field), CSVariable(c, info.instanceLoads[k].peer),
                  None, InstanceLoadEdge)
    case ArrayStoreRule =>
      EdgeRequest(CSVariable(c, info.arrayStores[k]), ArrayIndex(o), Some(ArrayIndexType(p, o)), ArrayStoreEdge)
    case ArrayLoadRule =>
      EdgeRequest(ArrayIndex(o), CSVariable(c, info.arrayLoads[k]), None, ArrayLoadEdge)
  }

  /**
   * A receiver-dependent call has been handled for receiver `o`: the callee resolves, the call
   * edge is known, and `o` reaches the callee's `this` under the callee context.
   */
  ghost predicate CallDone(p: Program, t: Tables, c: Context, cs: CallSite, o: CSObj) {
    match ResolveCallee(p, o.obj, cs)
    case Failure(_) => false
    case Success(callee) =>
      var e := InstanceCallEdge(p, c, cs, o, callee);
      CallKnown(t, e) && o in Known(t, CSVariable(e.callee.context, MethodOf(p, callee).thisVar))
  }

  /** The first `k` statements of the structural rule `r` on `x` have their edges for every object of `d`. */
  ghost predicate RuleEdgesDone(p: Program, t: Tables, r: Rule, c: Context, x: Variable, k: nat, d: set<CSObj>)
    requires r != CallRule && k <= RuleCount(p, r, x)
  {
    forall j, o | 0 <= j < k && o in d ::
      HasEdge(t, RuleEdge(p, r, c, x, o, j).from, RuleEdge(p, r, c, x, o, j).to, RuleEdge(p, r, c, x, o, j).filter,
              RuleEdge(p, r, c, x, o, j).kind)
  }

  /** The first `k` of the calls `calls` are done for every object of `d`. */
  ghost predicate CallsDone(p: Program, t: Tables, c: Context, calls: seq<CallSite>, k: nat, d: set<CSObj>)
    requires k <= |calls|
  {
    forall j, o | 0 <= j < k && o in d :: CallDone(p, t, c, calls[j], o)
  }

  /** Rule `r` has been applied to object `o` reaching variable `x` in context `c`. */
  ghost predicate RuleDone(p: Program, t: Tables, r: Rule, c: Context, x: Variable, o: CSObj) {
    if r == CallRule then
      forall k | 0 <= k < |VarOf(p, x).calls| :: CallDone(p, t, c, VarOf(p, x).calls[k], o)
    else
      forall k | 0 <= k < RuleCount(p, r, x) ::
        HasEdge(t, RuleEdge(p, r, c, x, o, k).from, RuleEdge(p, r, c, x, o, k).to, RuleEdge(p, r, c, x, o, k).filter,
                RuleEdge(p, r, c, x, o, k).kind)
  }

  /**
   * Every rule has been applied to every object resident in a variable, except the rules in
   * `open` for the objects `d` that have just reached `v`.
   */
  ghost predicate VarClosedExcept(p: Program, t: Tables, v: Pointer, d: set<CSObj>, open: set<Rule>) {
    forall x, o, r: Rule {:trigger RuleDone(p, t, r, x.context, x.variable, o)}
      | x in t.pts && o in t.pts[x] && x.CSVariable? && !(x == v && o in d && r in open) ::
      RuleDone(p, t, r, x.context, x.variable, o)
  }

  /**
   * Class `c` and every class above it is initialized or has no class initializer
   * (a hierarchy that is not well formed counts as not initialized).
   */
  ghost predicate ClassInitDone(p: Program, initialized: set<Type>, c: Type)
    decreases Depth(p, c)
  {
    (c in initialized || ClassInitializer(p, c).None?) &&
    match SuperClass(p, c)
    case None => true
    case Some(s) => Depth(p, s) < Depth(p, c) && ClassInitDone(p, initialized, s)
  }

  /** A class is marked only when it has an initializer, and only after its superclasses. */
  ghost predicate InitMarked(p: Program, t: Tables) {
    forall c | c in t.initializedClasses :: ClassInitializer(p, c).Some? && ClassInitDone(p, t.initializedClasses, c)
  }

  /** The invariant of the solver while the rules in `open` are still owed to `d` at `v`. */
  ghost predicate InvariantExcept(p: Program, t: Tables, v: Pointer, d: set<CSObj>, open: set<Rule>) {
    FlowClosed(p, t) && EdgeShapes(p, t) && InitMarked(p, t) && VarClosedExcept(p, t, v, d, open)
  }

  /** The invariant that holds between any two steps of the solver. */
  ghost predicate Invariant(p: Program, t: Tables) {
    InvariantExcept(p, t, StaticField(0), {}, {})
  }

  /** Statement `s` of the reachable context-sensitive method `m` has been processed. */
  ghost predicate StmtDone(p: Program, t: Tables, m: CSMethod, s: Stmt) {
    var c := m.context;
    match s
    case Allocation(v, _) =>
      CSObj(p.selectHeapContext(m, p.heapObj(s)), p.heapObj(s)) in Known(t, CSVariable(c, v))
    case Assign(to, from) => HasEdge(t, CSVariable(c, from), CSVariable(c, to), None, LocalAssignEdge)
    case AssignCast(to, from, castType) => HasEdge(t, CSVariable(c, from), CSVariable(c, to), Some(castType), CastEdge)
    case StaticLoad(to, f) => HasEdge(t, StaticField(f), CSVariable(c, to), None, StaticLoadEdge)
    case StaticStore(f, from) => HasEdge(t, CSVariable(c, from), StaticField(f), None, StaticStoreEdge)
    case Call(cs) => cs.kind.Static? ==> CallKnown(t, StaticCallEdge(p, m, cs))
    case _ => true
  }

  ghost predicate MethodDone(p: Program, t: Tables, m: CSMethod) {
    m.meth in t.reachableMethods &&
    forall s | s in MethodOf(p, m.meth).statements :: StmtDone(p, t, m, s)
  }

  /** Every class a statement of `meth` triggers is initialized. */
  ghost predicate MethodInitDone(p: Program, t: Tables, meth: Method) {
    forall s, c | s in MethodOf(p, meth).statements && c in InitTriggers(p, s) :: ClassInitDone(p, t.initializedClasses, c)
  }

  /** Every class the first `i` statements of `stmts` trigger is initialized in `initialized`. */
  ghost predicate TriggersDone(p: Program, initialized: set<Type>, stmts: seq<Stmt>, i: nat)
    requires i <= |stmts|
  {
    forall j, c | 0 <= j < i && c in InitTriggers(p, stmts[j]) :: ClassInitDone(p, initialized, c)
  }

  /** The entry methods `ms` as context-sensitive methods under the context `c`. */
  function CSEntries(c: Context, ms: seq<Method>): set<CSMethod> {
    set m | m in ms :: CSMethod(c, m)
  }

  /** The class of every method of `ms` is initialized in `initialized`. */
  ghost predicate EntryClassesDone(p: Program, initialized: set<Type>, ms: seq<Method>) {
    forall m | m in ms :: ClassInitDone(p, initialized, MethodOf(p, m).classType)
  }

  ghost predicate ClinitReached(p: Program, t: Tables, c: Type) {
    ClassInitializer(p, c).Some? ==> CSMethod(p.defaultContext, ClassInitializer(p, c).value) in t.reachableCS
  }

  /** Whatever became reachable or initialized between `t0` and `t` has been processed in `t`. */
  ghost predicate NewlyDone(p: Program, t0: Tables, t: Tables) {
    (forall m | m in t.reachableCS && m !in t0.reachableCS :: MethodDone(p, t, m)) &&
    (forall meth | meth in t.reachableMethods && meth !in t0.reachableMethods :: MethodInitDone(p, t, meth)) &&
    (forall c | c in t.initializedClasses && c !in t0.initializedClasses :: ClinitReached(p, t, c))
  }

  /** `meth` is the class initializer of a class initialized between `t0` and `t`. */
  ghost predicate NewClinit(p: Program, t0: Tables, t: Tables, meth: Method) {
    exists c | c in t.initializedClasses && c !in t0.initializedClasses :: ClassInitializer(p, c) == Some(meth)
  }

  /**
   * Whatever became reachable between `t0` and `t` is one of `roots` (context-sensitive
   * methods) or `meths` (methods), or the initializer of a class initialized in between,
   * reached in the default context.
   */
  ghost predicate ReachedOnly(p: Program, t0: Tables, t: Tables, roots: set<CSMethod>, meths: set<Method>) {
    (forall m | m in t.reachableCS && m !in t0.reachableCS ::
      m in roots || (m.context == p.defaultContext && NewClinit(p, t0, t, m.meth))) &&
    (forall meth | meth in t.reachableMethods && meth !in t0.reachableMethods ::
      meth in meths || NewClinit(p, t0, t, meth))
  }

  /** The first `i` present arguments of `cs`, in context `c`, flow into the parameters of `callee`. */
  ghost predicate ArgsPassed(p: Program, t: Tables, c: Context, cs: CallSite, callee: CSMethod, i: nat)
    requires i <= |cs.args|
  {
    forall j | 0 <= j < i && cs.args[j].Some? ::
      Param(MethodOf(p, callee.meth), j).Some? &&
      HasEdge(t, CSVariable(c, cs.args[j].value), CSVariable(callee.context, Param(MethodOf(p, callee.meth), j).value),
              None, ParameterPassingEdge)
  }

  /** The first `k` return variables `rets` of a callee in context `calleeContext` flow into `lhs`. */
  ghost predicate ResultsPassed(t: Tables, calleeContext: Context, rets: seq<Variable>, lhs: Pointer, k: nat)
    requires k <= |rets|
  {
    forall j | 0 <= j < k :: HasEdge(t, CSVariable(calleeContext, rets[j]), lhs, None, ReturnEdge)
  }

  /** A call edge passes every present argument to its parameter and every return value to the LHS. */
  ghost predicate EdgeWired(p: Program, t: Tables, e: CallEdge) {
    var callee := MethodOf(p, e.callee.meth);
    var cs := e.callSite.callSite;
    (forall i | 0 <= i < |cs.args| && cs.args[i].Some? ::
       Param(callee, i).Some? &&
       HasEdge(t, CSVariable(e.callSite.context, cs.args[i].value), CSVariable(e.callee.context, Param(callee, i).value),
               None, ParameterPassingEdge)) &&
    (cs.lhs.Some? ==>
       forall r | r in callee.returnVars ::
         HasEdge(t, CSVariable(e.callee.context, r), CSVariable(e.callSite.context, cs.lhs.value), None, ReturnEdge))
  }

  /** Everything reachable has been processed, and every call-graph edge has been wired. */
  ghost predicate Reached(p: Program, t: Tables) {
    (forall m | m in t.entryMethods :: m in t.reachableCS) &&
    (forall m | m in t.reachableCS :: MethodDone(p, t, m)) &&
    (forall meth | meth in t.reachableMethods :: MethodInitDone(p, t, meth)) &&
    (forall c | c in t.initializedClasses :: ClinitReached(p, t, c)) &&
    (forall e | e in t.callGraph :: e.callee in t.reachableCS && EdgeWired(p, t, e))
  }
}
