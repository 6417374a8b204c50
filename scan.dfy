/**
 * The first phase of target resolution as a specification on values: how one annotated
 * element changes the builder map, the bound-host set and the diagnostics, and how the
 * whole scan over all annotation kinds folds these steps.
 */
module Scan {
  import opened Results
  import opened ProgramModel
  import opened BundleSets

  /** A reported error, with the arguments of its message; the formatting is left out. */
  datatype Diagnostic =
    | PrivateOrStaticField(annotation: ValueKind, host: string, element: string)
    | FieldOutsideClass(annotation: ValueKind, host: string, element: string)
    | FieldInPrivateClass(annotation: ValueKind, host: string, element: string)
    | AndroidFrameworkPackage(annotation: ValueKind, host: string)
    | JavaFrameworkPackage(annotation: ValueKind, host: string)
    | DuplicateKey(annotation: ValueKind, key: string, existingName: string, host: string, element: string)
    | DuplicateName(annotation: ValueKind, existingAnnotation: ValueKind, host: string, existingName: string)

  /**
   * What the scan has accumulated: the builder per host type, the hosts in first-seen order
   * (the insertion order of the builder map), the set of hosts with at least one binding,
   * and the diagnostics reported so far.
   */
  datatype ScanState = ScanState(
    builders: map<TypeId, Builder>,
    order: seq<TypeId>,
    bound: set<TypeId>,
    diagnostics: seq<Diagnostic>)

  ghost predicate Distinct<T>(s: seq<T>) {
    forall i, j :: 0 <= i < j < |s| ==> s[i] != s[j]
  }

  /**
   * The scan's invariant: each host appears once in the order, the order lists exactly the
   * builder map's hosts, the bound-host set equals the builder map's key set, every host is a
   * known type, and each builder is unlinked and has unique keys and names.
   */
  ghost predicate ValidState(types: map<TypeId, TypeElement>, st: ScanState) {
    && Distinct(st.order)
    && (forall t :: t in st.builders <==> t in st.order)
    && st.bound == st.builders.Keys
    && (forall t :: t in st.builders ==>
          && t in types
          && st.builders[t].host == t
          && st.builders[t].parent.None?
          && UniqueBindings(st.builders[t].fields))
  }

  /** The state at the start of the scan: no builders, and the diagnostics printed before. */
  function InitialState(diagnostics: seq<Diagnostic>): ScanState {
    ScanState(map[], [], {}, diagnostics)
  }

  /**
   * The access checks on a field and its enclosing type.  All three run; each failing one
   * contributes its own error.
   */
  function AccessDiagnostics(kind: ValueKind, e: Element, host: TypeElement): (r: seq<Diagnostic>)
    ensures PrivateOrStaticField(kind, host.qualifiedName, e.name) in r <==> Private in e.modifiers || Static in e.modifiers
    ensures FieldOutsideClass(kind, host.qualifiedName, e.name) in r <==> host.kind != Class
    ensures FieldInPrivateClass(kind, host.qualifiedName, e.name) in r <==> Private in host.modifiers
    ensures r == [] <==> Private !in e.modifiers && Static !in e.modifiers && host.kind == Class && Private !in host.modifiers
    ensures |r| == (if Private in e.modifiers || Static in e.modifiers then 1 else 0)
                 + (if host.kind != Class then 1 else 0)
                 + (if Private in host.modifiers then 1 else 0)
  {
    (if Private in e.modifiers || Static in e.modifiers then [PrivateOrStaticField(kind, host.qualifiedName, e.name)] else [])
    + (if host.kind != Class then [FieldOutsideClass(kind, host.qualifiedName, e.name)] else [])
    + (if Private in host.modifiers then [FieldInPrivateClass(kind, host.qualifiedName, e.name)] else [])
  }

  /** The reserved-namespace check: at most one error, reported exactly for `android.` and `java.` hosts. */
  function PackageDiagnostics(kind: ValueKind, host: TypeElement): (r: seq<Diagnostic>)
    ensures |r| <= 1
    ensures r != [] <==> "android." <= host.qualifiedName || "java." <= host.qualifiedName
    ensures "android." <= host.qualifiedName ==> r == [AndroidFrameworkPackage(kind, host.qualifiedName)]
    ensures !("android." <= host.qualifiedName) && "java." <= host.qualifiedName ==>
      r == [JavaFrameworkPackage(kind, host.qualifiedName)]
  {
    if "android." <= host.qualifiedName then [AndroidFrameworkPackage(kind, host.qualifiedName)]
    else if "java." <= host.qualifiedName then [JavaFrameworkPackage(kind, host.qualifiedName)]
    else []
  }

  /** The errors that stop `e` from being bound: the access checks, and the package check only when they pass. */
  function ValidationDiagnostics(kind: ValueKind, e: Element, host: TypeElement): seq<Diagnostic> {
    var access := AccessDiagnostics(kind, e, host);
    if access != [] then access else PackageDiagnostics(kind, host)
  }

  /** The field binding that a valid element contributes to its host's builder. */
  function FieldOf(kind: ValueKind, e: Element): FieldBinding
    requires kind in e.annotations
  {
    FieldBinding(e.name, kind, e.annotations[kind], e.fieldType, e.required)
  }

  ghost predicate Parsable(types: map<TypeId, TypeElement>, kind: ValueKind, e: Element) {
    e.enclosing.EnclosedByType? && e.enclosing.host in types && kind in e.annotations
  }

  /** Parsing one field element found under annotation `kind`. */
  function ParseElement(types: map<TypeId, TypeElement>, st: ScanState, kind: ValueKind, e: Element): ScanState
    requires Parsable(types, kind, e)
  {
    var host := e.enclosing.host;
    var hostType := types[host];
    var errors := ValidationDiagnostics(kind, e, hostType);
    if errors != [] then
      st.(diagnostics := st.diagnostics + errors)
    else
      var key := e.annotations[kind];
      if host in st.builders && st.builders[host].FindExistingBindingByValue(key).Some? then
        var existing := st.builders[host].FindExistingBindingByValue(key).value;
        st.(diagnostics := st.diagnostics + [DuplicateKey(kind, key, existing.name, hostType.qualifiedName, e.name)])
      else if host in st.builders && st.builders[host].FindExistingBindingByName(e.name).Some? then
        var existing := st.builders[host].FindExistingBindingByName(e.name).value;
        st.(diagnostics := st.diagnostics + [DuplicateName(kind, existing.annotation, hostType.qualifiedName, existing.name)])
      else
        var builder := if host in st.builders then st.builders[host] else NewBuilder(host);
        ScanState(
          st.builders[host := builder.AddField(FieldOf(kind, e))],
          if host in st.builders then st.order else st.order + [host],
          st.bound + {host},
          st.diagnostics)
  }

  /** One iteration of the scan: an element enclosed by a method (a parameter) is skipped. */
  function VisitElement(types: map<TypeId, TypeElement>, st: ScanState, kind: ValueKind, e: Element): ScanState
    requires kind in e.annotations && (e.enclosing.EnclosedByType? ==> e.enclosing.host in types)
  {
    if e.enclosing.EnclosedByMethod? then st else ParseElement(types, st, kind, e)
  }

  ghost predicate ScannableElements(types: map<TypeId, TypeElement>, kind: ValueKind, es: seq<Element>) {
    forall e :: e in es ==> kind in e.annotations && (e.enclosing.EnclosedByType? ==> e.enclosing.host in types)
  }

  /**
   * The round lists each field once (the compiler hands out a set; method parameters carry no
   * identity of their method here, so equal ones may repeat) and every element names only
   * known host types.
   */
  ghost predicate WellFormedRound(types: map<TypeId, TypeElement>, env: RoundEnvironment) {
    && (forall i, j :: 0 <= i < j < |env.elements| && env.elements[i].enclosing.EnclosedByType? ==>
          env.elements[i] != env.elements[j])
    && forall e :: e in env.elements && e.enclosing.EnclosedByType? ==> e.enclosing.host in types
  }

  /** Visiting the elements annotated with one kind, in order. */
  function ScanElements(types: map<TypeId, TypeElement>, st: ScanState, kind: ValueKind, es: seq<Element>): ScanState
    requires ScannableElements(types, kind, es)
    decreases |es|
  {
    if es == [] then st
    else ScanElements(types, VisitElement(types, st, kind, es[0]), kind, es[1..])
  }

  /** Visiting every annotation kind of `kinds` in order, and for each its annotated elements. */
  function ScanKinds(types: map<TypeId, TypeElement>, env: RoundEnvironment, st: ScanState, kinds: seq<ValueKind>): ScanState
    requires WellFormedRound(types, env)
    decreases |kinds|
  {
    if kinds == [] then st
    else ScanKinds(types, env, ScanElements(types, st, kinds[0], env.ElementsAnnotatedWith(kinds[0])), kinds[1..])
  }

  /** An element enclosed by a method reaches no builder and reports nothing. */
  lemma MethodEnclosedSkipped(types: map<TypeId, TypeElement>, st: ScanState, kind: ValueKind, e: Element)
    requires kind in e.annotations && e.enclosing.EnclosedByMethod?
    ensures VisitElement(types, st, kind, e) == st
  {
  }

  /**
   * A rejected field leaves the builders, the host order and the bound-host set unchanged and
   * reports its errors: all failing access errors; otherwise the single package error;
   * otherwise one duplicate-key error naming the field that holds the key; otherwise one
   * duplicate-name error.
   */
  lemma ParseElementRejects(types: map<TypeId, TypeElement>, st: ScanState, kind: ValueKind, e: Element)
    requires Parsable(types, kind, e)
    requires var host := e.enclosing.host;
      || ValidationDiagnostics(kind, e, types[host]) != []
      || (host in st.builders && st.builders[host].FindExistingBindingByValue(e.annotations[kind]).Some?)
      || (host in st.builders && st.builders[host].FindExistingBindingByName(e.name).Some?)
    ensures var r := ParseElement(types, st, kind, e);
      && r.builders == st.builders && r.order == st.order && r.bound == st.bound
      && |r.diagnostics| > |st.diagnostics| && r.diagnostics[..|st.diagnostics|] == st.diagnostics
    ensures var host := e.enclosing.host;
      var access := AccessDiagnostics(kind, e, types[host]);
      var r := ParseElement(types, st, kind, e);
      && (access != [] ==> r.diagnostics == st.diagnostics + access)
      && (access == [] && PackageDiagnostics(kind, types[host]) != [] ==>
            |r.diagnostics| == |st.diagnostics| + 1 && r.diagnostics == st.diagnostics + PackageDiagnostics(kind, types[host]))
      && (ValidationDiagnostics(kind, e, types[host]) == [] && host in st.builders ==>
            var b := st.builders[host];
            var key := e.annotations[kind];
            && (b.FindExistingBindingByValue(key).Some? ==>
                  r.diagnostics == st.diagnostics + [DuplicateKey(kind, key, b.FindExistingBindingByValue(key).value.name,
                                                                  types[host].qualifiedName, e.name)])
            && (b.FindExistingBindingByValue(key).None? && b.FindExistingBindingByName(e.name).Some? ==>
                  r.diagnostics == st.diagnostics + [DuplicateName(kind, b.FindExistingBindingByName(e.name).value.annotation,
                                                                   types[host].qualifiedName, e.name)]))
  {
  }

  /**
   * An accepted field is appended, as the last field, to its host's builder, which is created
   * (and appended to the host order) the first time the host is seen; the host joins the
   * bound-host set; other builders and the diagnostics are unchanged.
   */
  lemma ParseElementAccepts(types: map<TypeId, TypeElement>, st: ScanState, kind: ValueKind, e: Element)
    requires Parsable(types, kind, e)
    requires var host := e.enclosing.host;
      && ValidationDiagnostics(kind, e, types[host]) == []
      && (host in st.builders ==>
            && st.builders[host].FindExistingBindingByValue(e.annotations[kind]).None?
            && st.builders[host].FindExistingBindingByName(e.name).None?)
    ensures var host := e.enclosing.host;
      var r := ParseElement(types, st, kind, e);
      var before := if host in st.builders then st.builders[host].fields else [];
      && r.diagnostics == st.diagnostics
      && host in r.builders && r.builders[host].fields == before + [FieldOf(kind, e)]
      && r.builders.Keys == st.builders.Keys + {host}
      && (forall t :: t in st.builders && t != host ==> r.builders[t] == st.builders[t])
      && r.order == (if host in st.builders then st.order else st.order + [host])
      && r.bound == st.bound + {host}
  {
  }

  /** Parsing one element keeps the scan invariant, in particular the uniqueness of keys and names. */
  lemma ParseElementKeepsValid(types: map<TypeId, TypeElement>, st: ScanState, kind: ValueKind, e: Element)
    requires Parsable(types, kind, e) && ValidState(types, st)
    ensures ValidState(types, ParseElement(types, st, kind, e))
  {
    var host := e.enclosing.host;
    var key := e.annotations[kind];
    if ValidationDiagnostics(kind, e, types[host]) == [] {
      if host in st.builders && st.builders[host].FindExistingBindingByValue(key).Some? {
      } else if host in st.builders && st.builders[host].FindExistingBindingByName(e.name).Some? {
      } else {
        AddFieldKeepsValid(types, st, host, FieldOf(kind, e));
      }
    }
  }

  /** Appending a new field under a known host, whose key and name are unused there, keeps the invariant. */
  lemma AddFieldKeepsValid(types: map<TypeId, TypeElement>, st: ScanState, host: TypeId, f: FieldBinding)
    requires ValidState(types, st) && host in types
    requires host in st.builders ==>
      st.builders[host].FindExistingBindingByValue(f.key).None? && st.builders[host].FindExistingBindingByName(f.name).None?
    ensures var builder := if host in st.builders then st.builders[host] else NewBuilder(host);
      ValidState(types, ScanState(
        st.builders[host := builder.AddField(f)],
        if host in st.builders then st.order else st.order + [host],
        st.bound + {host},
        st.diagnostics))
  {
  }

  /** Visiting one element keeps the invariant and only appends diagnostics. */
  lemma VisitElementKeepsValid(types: map<TypeId, TypeElement>, st: ScanState, kind: ValueKind, e: Element)
    requires kind in e.annotations && (e.enclosing.EnclosedByType? ==> e.enclosing.host in types)
    requires ValidState(types, st)
    ensures var r := VisitElement(types, st, kind, e);
      ValidState(types, r) && st.diagnostics <= r.diagnostics && st.bound <= r.bound
  {
    if e.enclosing.EnclosedByType? {
      ParseElementKeepsValid(types, st, kind, e);
    }
  }

  /** The scan of one kind's elements keeps the invariant and only appends diagnostics. */
  lemma {:induction false} ScanElementsKeepsValid(types: map<TypeId, TypeElement>, st: ScanState, kind: ValueKind, es: seq<Element>)
    requires ScannableElements(types, kind, es) && ValidState(types, st)
    ensures var r := ScanElements(types, st, kind, es);
      ValidState(types, r) && st.diagnostics <= r.diagnostics && st.bound <= r.bound
    decreases |es|
  {
    if es != [] {
      assert es[0] in es;
      VisitElementKeepsValid(types, st, kind, es[0]);
      var next := VisitElement(types, st, kind, es[0]);
      assert ScannableElements(types, kind, es[1..]) by {
        forall e | e in es[1..] ensures e in es { }
      }
      ScanElementsKeepsValid(types, next, kind, es[1..]);
    }
  }

  /** The whole scan keeps the invariant and only appends diagnostics. */
  lemma {:induction false} ScanKindsKeepsValid(types: map<TypeId, TypeElement>, env: RoundEnvironment, st: ScanState, kinds: seq<ValueKind>)
    requires WellFormedRound(types, env) && ValidState(types, st)
    ensures var r := ScanKinds(types, env, st, kinds);
      ValidState(types, r) && st.diagnostics <= r.diagnostics && st.bound <= r.bound
    decreases |kinds|
  {
    if kinds != [] {
      var es := env.ElementsAnnotatedWith(kinds[0]);
      ScanElementsKeepsValid(types, st, kinds[0], es);
      ScanKindsKeepsValid(types, env, ScanElements(types, st, kinds[0], es), kinds[1..]);
    }
  }
}
