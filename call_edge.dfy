/**
 * The call-graph edge of pascal.taie.analysis.graph.callgraph.Edge: an immutable
 * (kind, call site, callee) triple whose hash code is computed once, at construction.
 */
module CallGraphEdge {

  /** The kinds of call the call graph distinguishes. */
  datatype CallKind = Interface | Virtual | Special | Static | Dynamic | Other

  /**
   * An edge value. `hashCode` is the cached hash; only `NewEdge` builds edges, so it is
   * always the hash of the other three fields.
   */
  datatype Edge<CallSite, Method> = Edge(kind: CallKind, callSite: CallSite, callee: Method, hashCode: int)

  /**
   * What `Edge.equals(Object o)` may be handed: null, another edge, or an object of an
   * unrelated class (identified only by its identity).
   */
  datatype Value<CallSite, Method> = Null | EdgeValue(edge: Edge<CallSite, Method>) | Foreign(id: nat)

  /**
   * The constructor: stores the three components and caches `hash(kind, callSite, callee)`,
   * the value `HashUtils.hash` gives (an external function, so a parameter here).
   */
  function NewEdge<S, M>(hash: (CallKind, S, M) -> int, kind: CallKind, callSite: S, callee: M): (e: Edge<S, M>)
    ensures IsBuiltBy(hash, e)
  {
    Edge(kind, callSite, callee, hash(kind, callSite, callee))
  }

  /** `e` carries the hash that `hash` gives its components (true of every edge `NewEdge` builds). */
  ghost predicate IsBuiltBy<S, M>(hash: (CallKind, S, M) -> int, e: Edge<S, M>)
  {
    e.hashCode == hash(e.kind, e.callSite, e.callee)
  }

  function GetKind<S, M>(e: Edge<S, M>): CallKind { e.kind }

  function GetCallSite<S, M>(e: Edge<S, M>): S { e.callSite }

  function GetCallee<S, M>(e: Edge<S, M>): M { e.callee }

  /** `hashCode()`: the value cached at construction. */
  function HashCode<S, M>(e: Edge<S, M>): int { e.hashCode }

  /**
   * `equals(Object o)`: identity answers true at once; null and objects of another class
   * answer false; otherwise kind, call site and callee are compared.
   */
  function Equals<S(==), M(==)>(e: Edge<S, M>, o: Value<S, M>): bool
  {
    match o
    case Null => false
    case Foreign(_) => false
    case EdgeValue(other) =>
      if other == e then true
      else e.kind == other.kind && e.callSite == other.callSite && e.callee == other.callee
  }

  /** The getters give back exactly what the constructor was passed. */
  lemma GettersReturnArguments<S, M>(hash: (CallKind, S, M) -> int, kind: CallKind, cs: S, callee: M)
    ensures GetKind(NewEdge(hash, kind, cs, callee)) == kind
    ensures GetCallSite(NewEdge(hash, kind, cs, callee)) == cs
    ensures GetCallee(NewEdge(hash, kind, cs, callee)) == callee
    ensures HashCode(NewEdge(hash, kind, cs, callee)) == hash(kind, cs, callee)
  {
  }

  /** Two edges are equal exactly when their kinds, call sites and callees are. */
  lemma EqualsIffSameComponents<S, M>(e: Edge<S, M>, f: Edge<S, M>)
    ensures Equals(e, EdgeValue(f)) <==> (e.kind == f.kind && e.callSite == f.callSite && e.callee == f.callee)
  {
  }

  /** An edge equals itself and never equals null or an object of another class. */
  lemma EqualsReflexiveAndTyped<S, M>(e: Edge<S, M>, id: nat)
    ensures Equals(e, EdgeValue(e))
    ensures !Equals(e, Null) && !Equals(e, Foreign(id))
  {
  }

  /** Equality between edges is symmetric and transitive. */
  lemma EqualsIsEquivalence<S, M>(e: Edge<S, M>, f: Edge<S, M>, g: Edge<S, M>)
    ensures Equals(e, EdgeValue(f)) ==> Equals(f, EdgeValue(e))
    ensures Equals(e, EdgeValue(f)) && Equals(f, EdgeValue(g)) ==> Equals(e, EdgeValue(g))
  {
  }

  /**
   * Equal edges built with the same hash function have equal hash codes, which is what lets
   * a hash-based call graph deduplicate edges. The hash is the cached field, so it never
   * changes after construction.
   */
  lemma EqualEdgesHaveEqualHashes<S, M>(hash: (CallKind, S, M) -> int, e: Edge<S, M>, f: Edge<S, M>)
    requires IsBuiltBy(hash, e) && IsBuiltBy(hash, f)
    requires Equals(e, EdgeValue(f))
    ensures HashCode(e) == HashCode(f)
  {
  }

  /** Equality of edges coincides with equality of the Dafny values once both carry their own hash. */
  lemma EqualsIsValueEquality<S, M>(hash: (CallKind, S, M) -> int, e: Edge<S, M>, f: Edge<S, M>)
    requires IsBuiltBy(hash, e) && IsBuiltBy(hash, f)
    ensures Equals(e, EdgeValue(f)) <==> e == f
  {
  }
}
