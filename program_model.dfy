/**
 * The program model the annotation processor reads: the binding annotation kinds it
 * scans for, the annotated field elements, and the type elements with their superclass
 * links.  The compiler's semantic model is replaced by these plain records.
 */
module ProgramModel {
  import opened Results

  /** The binding annotation classes the processor scans for, one per container value kind. */
  datatype ValueKind =
    | BooleanArrayValue | BooleanValue | ByteArrayValue | ByteValue | CharArrayValue
    | CharSequenceArrayListValue | CharSequenceArrayValue | CharSequenceValue | CharValue
    | DoubleArrayValue | DoubleValue | FloatArrayValue | FloatValue | IntArrayValue
    | IntegerArrayListValue | IntValue | LongArrayValue | LongValue | ParcelableArrayListValue
    | ParcelableArrayValue | ParcelableValue | SerializableValue | ShortArrayValue | ShortValue
    | SparseParcelableArrayValue | StringArrayListValue | StringArrayValue | StringValue

  /** The processor's annotation list, in the order in which it is scanned. */
  const Annotations: seq<ValueKind> := [
    BooleanArrayValue, BooleanValue, ByteArrayValue, ByteValue, CharArrayValue,
    CharSequenceArrayListValue, CharSequenceArrayValue, CharSequenceValue, CharValue,
    DoubleArrayValue, DoubleValue, FloatArrayValue, FloatValue, IntArrayValue,
    IntegerArrayListValue, IntValue, LongArrayValue, LongValue, ParcelableArrayListValue,
    ParcelableArrayValue, ParcelableValue, SerializableValue, ShortArrayValue, ShortValue,
    SparseParcelableArrayValue, StringArrayListValue, StringArrayValue, StringValue
  ]

  datatype Modifier = Public | Protected | Private | Static | Final | Abstract | Transient | Volatile

  /** The element kinds a type element can have. */
  datatype ElementKind = Class | Interface | Enum | AnnotationType

  /** Type elements are referred to by identity. */
  type TypeId = nat

  /** A type element: its qualified name, kind, modifiers and superclass (`None` for TypeKind.NONE). */
  datatype TypeElement = TypeElement(
    qualifiedName: string,
    kind: ElementKind,
    modifiers: set<Modifier>,
    superclass: Option<TypeId>)

  /** What encloses an annotated element: a method (for a parameter) or a type (for a field). */
  datatype Enclosing = EnclosedByMethod | EnclosedByType(host: TypeId)

  /**
   * An annotated element.  `annotations` maps each binding annotation it carries to that
   * annotation's `value()` key; `required` says whether it also carries `@Required`;
   * `fieldType` is the name of its declared type.
   */
  datatype Element = Element(
    name: string,
    modifiers: set<Modifier>,
    enclosing: Enclosing,
    fieldType: string,
    annotations: map<ValueKind, string>,
    required: bool)

  /** One processing round: the annotated elements, in the compiler's order. */
  datatype RoundEnvironment = RoundEnvironment(elements: seq<Element>) {

    /** The elements annotated with `kind`, in order. */
    function ElementsAnnotatedWith(kind: ValueKind): (r: seq<Element>)
      ensures forall e :: e in r ==> e in elements && kind in e.annotations
      ensures forall e :: e in elements && kind in e.annotations ==> e in r
    {
      Filter(elements, kind)
    }
  }

  function Filter(es: seq<Element>, kind: ValueKind): (r: seq<Element>)
    ensures forall e :: e in r <==> e in es && kind in e.annotations
  {
    if es == [] then []
    else (if kind in es[0].annotations then [es[0]] else []) + Filter(es[1..], kind)
  }

  /**
   * The type elements form a finite acyclic hierarchy: every superclass is itself a known
   * type element, and `rank` strictly decreases from a type to its superclass.
   */
  ghost predicate WellFormedHierarchy(types: map<TypeId, TypeElement>, rank: map<TypeId, nat>) {
    forall t :: t in types ==>
      && t in rank
      && (types[t].superclass.Some? ==>
            types[t].superclass.value in types && types[t].superclass.value in rank
              && rank[types[t].superclass.value] < rank[t])
  }

  /** `a` lies strictly above `t` on `t`'s superclass chain. */
  ghost predicate IsStrictAncestor(types: map<TypeId, TypeElement>, rank: map<TypeId, nat>, a: TypeId, t: TypeId)
    requires WellFormedHierarchy(types, rank) && t in types
    decreases rank[t]
  {
    match types[t].superclass
    case None => false
    case Some(s) => s == a || IsStrictAncestor(types, rank, a, s)
  }

  /** The first type in `parents` met when walking up from `t`'s superclass, if any. */
  ghost function NearestBoundAncestor(types: map<TypeId, TypeElement>, rank: map<TypeId, nat>,
                                      parents: set<TypeId>, t: TypeId): Option<TypeId>
    requires WellFormedHierarchy(types, rank) && t in types
    decreases rank[t]
  {
    match types[t].superclass
    case None => None
    case Some(s) => if s in parents then Some(s) else NearestBoundAncestor(types, rank, parents, s)
  }

  /** A strict ancestor is a known type of lower rank, so no type is its own ancestor. */
  lemma {:induction false} AncestorRankBelow(types: map<TypeId, TypeElement>, rank: map<TypeId, nat>, a: TypeId, t: TypeId)
    requires WellFormedHierarchy(types, rank) && t in types
    requires IsStrictAncestor(types, rank, a, t)
    ensures a in types && rank[a] < rank[t] && a != t
    decreases rank[t]
  {
    var s := types[t].superclass.value;
    if s != a {
      AncestorRankBelow(types, rank, a, s);
    }
  }

  /** The nearest bound ancestor is a bound strict ancestor (hence never `t` itself). */
  lemma {:induction false} NearestBoundIsBoundAncestor(types: map<TypeId, TypeElement>, rank: map<TypeId, nat>,
                                                      parents: set<TypeId>, t: TypeId)
    requires WellFormedHierarchy(types, rank) && t in types
    requires NearestBoundAncestor(types, rank, parents, t).Some?
    ensures var p := NearestBoundAncestor(types, rank, parents, t).value;
      p in parents && IsStrictAncestor(types, rank, p, t) && p in types && rank[p] < rank[t] && p != t
    decreases rank[t]
  {
    var s := types[t].superclass.value;
    if s !in parents {
      NearestBoundIsBoundAncestor(types, rank, parents, s);
    }
    AncestorRankBelow(types, rank, NearestBoundAncestor(types, rank, parents, t).value, t);
  }

  /**
   * Every bound strict ancestor of `t` is the nearest one or lies above it: none is closer.
   * In particular, when there is no nearest bound ancestor, no strict ancestor is bound.
   */
  lemma {:induction false} NearestBoundIsNearest(types: map<TypeId, TypeElement>, rank: map<TypeId, nat>,
                                                parents: set<TypeId>, t: TypeId, a: TypeId)
    requires WellFormedHierarchy(types, rank) && t in types
    requires IsStrictAncestor(types, rank, a, t) && a in parents
    ensures NearestBoundAncestor(types, rank, parents, t).Some?
    ensures var p := NearestBoundAncestor(types, rank, parents, t).value;
      p in types && (a == p || IsStrictAncestor(types, rank, a, p))
    decreases rank[t]
  {
    var s := types[t].superclass.value;
    if s in parents {
      if a != s {
        assert IsStrictAncestor(types, rank, a, s);
      }
    } else {
      assert a != s;
      NearestBoundIsNearest(types, rank, parents, s, a);
    }
  }
}
