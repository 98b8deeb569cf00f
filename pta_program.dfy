/**
 * The program the points-to solver of bamboo.pta.core.solver analyses, and the collaborators it
 * consults: the program manager (class hierarchy, dispatch, assignability), the heap model and the
 * context selector. Program elements are indexes; the collaborators are uninterpreted functions.
 */
module PtaProgram {
  import opened Wrappers
  import opened CallGraphEdge

  type Context = nat
  type Variable = nat
  type Field = nat
  type Type = nat
  type Method = nat
  type Obj = nat

  /** A heap object under a heap context. */
  datatype CSObj = CSObj(heapContext: Context, obj: Obj)

  /** The four kinds of pointer of the pointer-flow graph. */
  datatype Pointer =
    | CSVariable(context: Context, variable: Variable)
    | InstanceField(base: CSObj, field: Field)
    | ArrayIndex(arrayObj: CSObj)
    | StaticField(field: Field)

  /**
   * A call site: its kind, the method it names (`target`), the method containing it, its arguments
   * (an argument may be absent) and its optional left-hand side.
   */
  datatype CallSite = CallSite(
    id: nat, kind: CallKind, target: Method, container: Method,
    args: seq<Option<Variable>>, lhs: Option<Variable>)

  datatype CSCallSite = CSCallSite(context: Context, callSite: CallSite)
  datatype CSMethod = CSMethod(context: Context, meth: Method)

  /** A call-graph edge; two edges are the same edge when kind, call site and callee agree. */
  datatype CallEdge = CallEdge(kind: CallKind, callSite: CSCallSite, callee: CSMethod)

  /** The statements the solver reacts to. */
  datatype Stmt =
    | Allocation(v: Variable, site: Obj)
    | Assign(to: Variable, from: Variable)
    | AssignCast(to: Variable, from: Variable, castType: Type)
    | InstanceLoad(to: Variable, base: Variable, field: Field)
    | InstanceStore(base: Variable, field: Field, from: Variable)
    | ArrayLoad(to: Variable, base: Variable)
    | ArrayStore(base: Variable, from: Variable)
    | StaticLoad(to: Variable, field: Field)
    | StaticStore(field: Field, from: Variable)
    | Call(callSite: CallSite)

  /** An instance load or store seen from its base variable: the field and the other variable. */
  datatype FieldAccess = FieldAccess(field: Field, peer: Variable)

  /**
   * The statements in which a variable is the base or the receiver: `x.f = peer`,
   * `peer = x.f`, `x[*] = y`, `y = x[*]` and calls on `x`.
   */
  datatype VarInfo = VarInfo(
    instanceStores: seq<FieldAccess>, instanceLoads: seq<FieldAccess>,
    arrayStores: seq<Variable>, arrayLoads: seq<Variable>, calls: seq<CallSite>)

  /** A method: its class, `this`, its parameters (any of which may be absent), its return variables and statements. */
  datatype MethodInfo = MethodInfo(
    classType: Type, thisVar: Variable, params: seq<Option<Variable>>,
    returnVars: seq<Variable>, statements: seq<Stmt>)

  /** A class: its superclass, its class initializer, and its distance from the hierarchy root. */
  datatype ClassInfo = ClassInfo(superClass: Option<Type>, classInitializer: Option<Method>, depth: nat)

  /** An abstract object: its type and, for a class object `C.class`, the class it stands for. */
  datatype ObjInfo = ObjInfo(objType: Type, classObjectOf: Option<Type>)

  datatype TypeKind = ClassType | ArrayType(baseType: Type) | OtherType

  datatype Program = Program(
    classes: map<Type, ClassInfo>,
    methods: map<Method, MethodInfo>,
    vars: map<Variable, VarInfo>,
    objInfo: Obj -> ObjInfo,
    typeKind: Type -> TypeKind,
    elementType: Type -> Type,
    fieldClass: Field -> Type,
    canAssign: (Type, Type) -> bool,
    resolveInterfaceOrVirtualCall: (Type, Method) -> Method,
    resolveSpecialCall: (CallSite, Method) -> Method,
    heapObj: Stmt -> Obj,
    defaultContext: Context,
    selectContext: (CSCallSite, Option<CSObj>, Method) -> Context,
    selectHeapContext: (CSMethod, Obj) -> Context,
    mainMethod: Method,
    implicitEntries: seq<Method>,
    analyzeImplicitEntries: bool,
    mainArgs: Obj,
    mainArgsElem: Obj)

  /** The class hierarchy is acyclic: a superclass is strictly closer to the root. */
  ghost predicate WellFormed(p: Program) {
    forall c | c in p.classes && p.classes[c].superClass.Some? ::
      p.classes[c].superClass.value in p.classes &&
      p.classes[p.classes[c].superClass.value].depth < p.classes[c].depth
  }

  function MethodOf(p: Program, m: Method): MethodInfo {
    if m in p.methods then p.methods[m] else MethodInfo(0, 0, [], [], [])
  }

  /** `getParam(i)`: the `i`-th parameter, absent when the method has none at that index. */
  function Param(info: MethodInfo, i: nat): Option<Variable> {
    if i < |info.params| then info.params[i] else None
  }

  function VarOf(p: Program, x: Variable): VarInfo {
    if x in p.vars then p.vars[x] else VarInfo([], [], [], [], [])
  }

  function SuperClass(p: Program, c: Type): Option<Type> {
    if c in p.classes then p.classes[c].superClass else None
  }

  function ClassInitializer(p: Program, c: Type): Option<Method> {
    if c in p.classes then p.classes[c].classInitializer else None
  }

  function Depth(p: Program, c: Type): nat {
    if c in p.classes then p.classes[c].depth else 0
  }

  function ObjType(p: Program, o: CSObj): Type {
    p.objInfo(o.obj).objType
  }

  /** The declared element type of an array object, the filter of array stores into it. */
  function ArrayIndexType(p: Program, a: CSObj): Type {
    p.elementType(ObjType(p, a))
  }

  /** The error that aborts the analysis. */
  datatype AnalysisError =
    | UnknownCallSite(callSite: CallSite)
    | MissingParameter(callee: Method, index: nat)

  /** The call kinds the solver can dispatch on a receiver. */
  predicate Dispatchable(cs: CallSite) {
    cs.kind.Interface? || cs.kind.Virtual? || cs.kind.Special?
  }

  /** Dispatch of a receiver-dependent call on the abstract object `recv`. */
  function ResolveCallee(p: Program, recv: Obj, cs: CallSite): (r: Result<Method, AnalysisError>)
    ensures r.Failure? <==> !Dispatchable(cs)
    ensures r.Failure? ==> r.error == UnknownCallSite(cs)
  {
    match cs.kind
    case Interface => Success(p.resolveInterfaceOrVirtualCall(p.objInfo(recv).objType, cs.target))
    case Virtual => Success(p.resolveInterfaceOrVirtualCall(p.objInfo(recv).objType, cs.target))
    case Special => Success(p.resolveSpecialCall(cs, cs.container))
    case _ => Failure(UnknownCallSite(cs))
  }

  /** The edge a static call at `cs` in `caller` contributes. */
  function StaticCallEdge(p: Program, caller: CSMethod, cs: CallSite): CallEdge {
    var csCallSite := CSCallSite(caller.context, cs);
    CallEdge(Static, csCallSite, CSMethod(p.selectContext(csCallSite, None, cs.target), cs.target))
  }

  /** The edge a receiver-dependent call contributes for receiver `o` and resolved `callee`. */
  function InstanceCallEdge(p: Program, c: Context, cs: CallSite, o: CSObj, callee: Method): CallEdge {
    var csCallSite := CSCallSite(c, cs);
    CallEdge(cs.kind, csCallSite, CSMethod(p.selectContext(csCallSite, Some(o), callee), callee))
  }

  /** The entry methods: the main method, then the implicit entries when they are analysed. */
  function ComputeEntries(p: Program): (r: seq<Method>)
    ensures |r| > 0 && r[0] == p.mainMethod
    ensures |r| == 1 + if p.analyzeImplicitEntries then |p.implicitEntries| else 0
    ensures forall m :: m in r <==> m == p.mainMethod || (p.analyzeImplicitEntries && m in p.implicitEntries)
  {
    [p.mainMethod] + (if p.analyzeImplicitEntries then p.implicitEntries else [])
  }

  /** The classes whose initialization a statement triggers, in the order it triggers them. */
  function InitTriggers(p: Program, s: Stmt): seq<Type>
  {
    match s
    case Allocation(_, site) =>
      var info := p.objInfo(site);
      (if info.classObjectOf.Some? then [info.classObjectOf.value] else []) +
      (match p.typeKind(info.objType)
       case ClassType => [info.objType]
       case ArrayType(base) => [base]
       case OtherType => [])
    case Call(cs) => if cs.kind.Static? then [MethodOf(p, cs.target).classType] else []
    case StaticLoad(_, f) => [p.fieldClass(f)]
    case StaticStore(f, _) => [p.fieldClass(f)]
    case _ => []
  }
}
