/**
 * The annotation processor's target resolution: scan the annotated fields into one builder per
 * host type, then link each host's binding to the binding of its nearest bound superclass with
 * a FIFO worklist that defers a host until its parent binding is built.
 */
module Processor {
  import opened Results
  import opened ProgramModel
  import opened BundleSets
  import opened Scan

  /**
   * The two collections the scan fills: the builder map (a LinkedHashMap, whose insertion
   * order is `builderOrder`) and the set of hosts with bindings (`erasedTargetNames`).
   */
  class BindingTargets {
    var builderMap: map<TypeId, Builder>
    var builderOrder: seq<TypeId>
    var erasedTargetNames: set<TypeId>

    constructor ()
      ensures builderMap == map[] && builderOrder == [] && erasedTargetNames == {}
    {
      builderMap := map[];
      builderOrder := [];
      erasedTargetNames := {};
    }
  }

  /** The binding for a host whose nearest bound ancestor is `p`, as the worklist builds it. */
  ghost predicate BuiltFrom(types: map<TypeId, TypeElement>, rank: map<TypeId, nat>, bound: set<TypeId>,
                            builders: map<TypeId, Builder>, bindingMap: map<TypeId, BundleSet>, t: TypeId)
    requires WellFormedHierarchy(types, rank) && t in types && t in builders && t in bindingMap
  {
    match NearestBoundAncestor(types, rank, bound, t)
    case None => bindingMap[t] == builders[t].Build()
    case Some(p) => p in bindingMap && bindingMap[t] == builders[t].SetParent(bindingMap[p]).Build()
  }

  /** Every host appears after the host of its parent binding. */
  ghost predicate ParentsFirst(types: map<TypeId, TypeElement>, rank: map<TypeId, nat>, bound: set<TypeId>, order: seq<TypeId>)
    requires WellFormedHierarchy(types, rank) && forall t :: t in order ==> t in types
  {
    forall i :: 0 <= i < |order| && NearestBoundAncestor(types, rank, bound, order[i]).Some? ==>
      NearestBoundAncestor(types, rank, bound, order[i]).value in order[..i]
  }

  ghost predicate HostsKnown(types: map<TypeId, TypeElement>, builders: map<TypeId, Builder>) {
    forall t :: t in builders ==> t in types
  }

  /**
   * What the worklist produces: exactly one binding per builder, built in the order
   * `bindingOrder` (each host once), each from its own builder and linked to the binding of
   * its nearest bound ancestor, which was built before it.
   */
  ghost predicate Linked(types: map<TypeId, TypeElement>, rank: map<TypeId, nat>, bound: set<TypeId>,
                         builders: map<TypeId, Builder>, bindingMap: map<TypeId, BundleSet>, bindingOrder: seq<TypeId>)
    requires WellFormedHierarchy(types, rank) && HostsKnown(types, builders)
  {
    && bindingMap.Keys == builders.Keys
    && Distinct(bindingOrder)
    && (forall t :: t in bindingMap <==> t in bindingOrder)
    && (forall t :: t in bindingMap ==> BuiltFrom(types, rank, bound, builders, bindingMap, t))
    && ParentsFirst(types, rank, bound, bindingOrder)
  }

  /** A host can be built once it has no bound ancestor or its parent binding is built. */
  ghost predicate Ready(types: map<TypeId, TypeElement>, rank: map<TypeId, nat>, bound: set<TypeId>,
                        bindingMap: map<TypeId, BundleSet>, t: TypeId)
    requires WellFormedHierarchy(types, rank) && t in types
  {
    var p := NearestBoundAncestor(types, rank, bound, t);
    p.None? || p.value in bindingMap
  }

  /** A position in a non-empty queue holding a host of least rank. */
  lemma MinRankIndex(rank: map<TypeId, nat>, queue: seq<TypeId>) returns (k: nat)
    requires |queue| > 0 && forall t :: t in queue ==> t in rank
    ensures k < |queue| && forall j :: 0 <= j < |queue| ==> rank[queue[k]] <= rank[queue[j]]
  {
    k := 0;
    var i := 1;
    while i < |queue|
      invariant 0 <= k < i <= |queue|
      invariant forall j :: 0 <= j < i ==> rank[queue[k]] <= rank[queue[j]]
    {
      if rank[queue[i]] < rank[queue[k]] {
        k := i;
      }
      i := i + 1;
    }
  }

  /**
   * While the queue is not empty, some host in it is ready: a host of least rank cannot wait
   * for a parent still in the queue, since that parent has a lower rank.
   */
  lemma ReadyEntry(types: map<TypeId, TypeElement>, rank: map<TypeId, nat>, bound: set<TypeId>,
                   builders: map<TypeId, Builder>, queue: seq<TypeId>, bindingMap: map<TypeId, BundleSet>)
    returns (k: nat)
    requires WellFormedHierarchy(types, rank) && |queue| > 0
    requires forall t :: t in queue ==> t in types
    requires bound <= builders.Keys
    requires forall t :: t in builders ==> t in queue || t in bindingMap
    ensures k < |queue| && Ready(types, rank, bound, bindingMap, queue[k])
  {
    k := MinRankIndex(rank, queue);
    var t := queue[k];
    var nb := NearestBoundAncestor(types, rank, bound, t);
    if nb.Some? {
      NearestBoundIsBoundAncestor(types, rank, bound, t);
      var p := nb.value;
      assert p !in queue by {
        forall j | 0 <= j < |queue|
          ensures queue[j] != p
        {
          assert rank[queue[k]] <= rank[queue[j]];
        }
      }
    }
  }

  /** The part of `Linked` that holds of the bindings built so far. */
  ghost predicate PartiallyLinked(types: map<TypeId, TypeElement>, rank: map<TypeId, nat>, bound: set<TypeId>,
                                  builders: map<TypeId, Builder>, bindingMap: map<TypeId, BundleSet>, bindingOrder: seq<TypeId>)
    requires WellFormedHierarchy(types, rank) && HostsKnown(types, builders)
  {
    && (forall t :: t in bindingMap ==> t in builders)
    && Distinct(bindingOrder)
    && (forall t :: t in bindingMap <==> t in bindingOrder)
    && (forall t :: t in bindingMap ==> BuiltFrom(types, rank, bound, builders, bindingMap, t))
    && ParentsFirst(types, rank, bound, bindingOrder)
  }

  /** Building a ready host that is not built yet, from its builder and its parent's binding, keeps the bindings linked. */
  lemma BuildReadyHost(types: map<TypeId, TypeElement>, rank: map<TypeId, nat>, bound: set<TypeId>,
                       builders: map<TypeId, Builder>, bindingMap: map<TypeId, BundleSet>, bindingOrder: seq<TypeId>,
                       entry: TypeId, binding: BundleSet)
    requires WellFormedHierarchy(types, rank) && HostsKnown(types, builders)
    requires PartiallyLinked(types, rank, bound, builders, bindingMap, bindingOrder)
    requires entry in builders && entry !in bindingMap && Ready(types, rank, bound, bindingMap, entry)
    requires var p := NearestBoundAncestor(types, rank, bound, entry);
      binding == if p.None? then builders[entry].Build() else builders[entry].SetParent(bindingMap[p.value]).Build()
    ensures PartiallyLinked(types, rank, bound, builders, bindingMap[entry := binding], bindingOrder + [entry])
  {
    var m := bindingMap[entry := binding];
    var o := bindingOrder + [entry];
    forall t | t in m
      ensures BuiltFrom(types, rank, bound, builders, m, t)
    {
      if t != entry {
        assert BuiltFrom(types, rank, bound, builders, bindingMap, t);
      }
    }
    forall i | 0 <= i < |o| && NearestBoundAncestor(types, rank, bound, o[i]).Some?
      ensures NearestBoundAncestor(types, rank, bound, o[i]).value in o[..i]
    {
      if i < |bindingOrder| {
        assert o[..i] == bindingOrder[..i];
      } else {
        assert o[..i] == bindingOrder;
      }
    }
  }

  /** The worklist state: every builder is either still queued (once) or already built. */
  ghost predicate Worklist(types: map<TypeId, TypeElement>, rank: map<TypeId, nat>, bound: set<TypeId>,
                           builders: map<TypeId, Builder>, queue: seq<TypeId>,
                           bindingMap: map<TypeId, BundleSet>, bindingOrder: seq<TypeId>)
    requires WellFormedHierarchy(types, rank) && HostsKnown(types, builders)
  {
    && Distinct(queue)
    && (forall t :: t in queue ==> t in builders && t !in bindingMap)
    && (forall t :: t in builders <==> t in queue || t in bindingMap)
    && PartiallyLinked(types, rank, bound, builders, bindingMap, bindingOrder)
  }

  /** Building the ready host at the front of the queue keeps the worklist state. */
  lemma BuildFront(types: map<TypeId, TypeElement>, rank: map<TypeId, nat>, bound: set<TypeId>,
                   builders: map<TypeId, Builder>, queue: seq<TypeId>,
                   bindingMap: map<TypeId, BundleSet>, bindingOrder: seq<TypeId>, binding: BundleSet)
    requires WellFormedHierarchy(types, rank) && HostsKnown(types, builders)
    requires Worklist(types, rank, bound, builders, queue, bindingMap, bindingOrder)
    requires |queue| > 0 && Ready(types, rank, bound, bindingMap, queue[0])
    requires var p := NearestBoundAncestor(types, rank, bound, queue[0]);
      binding == if p.None? then builders[queue[0]].Build() else builders[queue[0]].SetParent(bindingMap[p.value]).Build()
    ensures Worklist(types, rank, bound, builders, queue[1..], bindingMap[queue[0] := binding], bindingOrder + [queue[0]])
  {
    BuildReadyHost(types, rank, bound, builders, bindingMap, bindingOrder, queue[0], binding);
    assert queue == [queue[0]] + queue[1..];
  }

  /**
   * Moving a host that is not ready from the front to the back keeps the worklist state, and
   * the ready host at position `k` (never the front) is then at position `k - 1`.
   */
  lemma DeferFront(types: map<TypeId, TypeElement>, rank: map<TypeId, nat>, bound: set<TypeId>,
                   builders: map<TypeId, Builder>, queue: seq<TypeId>,
                   bindingMap: map<TypeId, BundleSet>, bindingOrder: seq<TypeId>, k: nat)
    requires WellFormedHierarchy(types, rank) && HostsKnown(types, builders)
    requires Worklist(types, rank, bound, builders, queue, bindingMap, bindingOrder)
    requires k < |queue| && Ready(types, rank, bound, bindingMap, queue[k])
    requires !Ready(types, rank, bound, bindingMap, queue[0])
    ensures 0 < k && (queue[1..] + [queue[0]])[k - 1] == queue[k]
    ensures Worklist(types, rank, bound, builders, queue[1..] + [queue[0]], bindingMap, bindingOrder)
  {
  }

  /**
   * Any two binding maps built from the same builders by the linking rule are equal: the
   * result does not depend on the order in which hosts were discovered.
   */
  lemma {:induction false} LinkingIsUnique(types: map<TypeId, TypeElement>, rank: map<TypeId, nat>, bound: set<TypeId>,
                                           builders: map<TypeId, Builder>, m1: map<TypeId, BundleSet>, m2: map<TypeId, BundleSet>)
    requires WellFormedHierarchy(types, rank) && HostsKnown(types, builders)
    requires m1.Keys == builders.Keys && m2.Keys == builders.Keys
    requires forall t :: t in m1 ==> BuiltFrom(types, rank, bound, builders, m1, t)
    requires forall t :: t in m2 ==> BuiltFrom(types, rank, bound, builders, m2, t)
    ensures m1 == m2
  {
    forall t | t in builders
      ensures m1[t] == m2[t]
    {
      AgreeAt(types, rank, bound, builders, m1, m2, t);
    }
  }

  lemma {:induction false} AgreeAt(types: map<TypeId, TypeElement>, rank: map<TypeId, nat>, bound: set<TypeId>,
                                   builders: map<TypeId, Builder>, m1: map<TypeId, BundleSet>, m2: map<TypeId, BundleSet>, t: TypeId)
    requires WellFormedHierarchy(types, rank) && HostsKnown(types, builders)
    requires m1.Keys == builders.Keys && m2.Keys == builders.Keys
    requires forall t :: t in m1 ==> BuiltFrom(types, rank, bound, builders, m1, t)
    requires forall t :: t in m2 ==> BuiltFrom(types, rank, bound, builders, m2, t)
    requires t in builders
    ensures m1[t] == m2[t]
    decreases rank[t]
  {
    assert BuiltFrom(types, rank, bound, builders, m1, t) && BuiltFrom(types, rank, bound, builders, m2, t);
    var nb := NearestBoundAncestor(types, rank, bound, t);
    if nb.Some? {
      NearestBoundIsBoundAncestor(types, rank, bound, t);
      AgreeAt(types, rank, bound, builders, m1, m2, nb.value);
    }
  }

  /**
   * The shape of a linked binding built from unlinked builders: its own host and fields, and
   * as parent the binding of its nearest bound ancestor, or none when the superclass chain
   * ends first.
   */
  lemma LinkedBindingShape(types: map<TypeId, TypeElement>, rank: map<TypeId, nat>, bound: set<TypeId>,
                           builders: map<TypeId, Builder>, bindingMap: map<TypeId, BundleSet>, bindingOrder: seq<TypeId>, t: TypeId)
    requires WellFormedHierarchy(types, rank) && HostsKnown(types, builders)
    requires Linked(types, rank, bound, builders, bindingMap, bindingOrder)
    requires t in builders && builders[t].parent.None?
    ensures t in bindingMap
    ensures bindingMap[t].host == builders[t].host && bindingMap[t].fields == builders[t].fields
    ensures var p := NearestBoundAncestor(types, rank, bound, t);
      && (p.None? ==> bindingMap[t].parent.None?)
      && (p.Some? ==> p.value in bindingMap && bindingMap[t].parent == Some(bindingMap[p.value]))
  {
  }

  /** The annotation processor; `diagnostics` is what it has printed to the compiler's Messager. */
  class AutoBundleProcessor {
    var diagnostics: seq<Diagnostic>

    constructor ()
      ensures diagnostics == []
    {
      diagnostics := [];
    }

    /** The scan state held by this processor and `targets`. */
    function State(targets: BindingTargets): ScanState
      reads this, targets
    {
      ScanState(targets.builderMap, targets.builderOrder, targets.erasedTargetNames, diagnostics)
    }

    /**
     * Scans every annotation kind in turn, skipping elements enclosed by a method and parsing
     * the others, then links the builders into bindings.
     */
    method FindAndParseTargets(types: map<TypeId, TypeElement>, ghost rank: map<TypeId, nat>, env: RoundEnvironment)
      returns (bindingMap: map<TypeId, BundleSet>, bindingOrder: seq<TypeId>)
      requires WellFormedHierarchy(types, rank) && WellFormedRound(types, env)
      modifies this
      ensures var scanned := ScanKinds(types, env, InitialState(old(diagnostics)), Annotations);
        && diagnostics == scanned.diagnostics
        && ValidState(types, scanned)
        && HostsKnown(types, scanned.builders)
        && Linked(types, rank, scanned.bound, scanned.builders, bindingMap, bindingOrder)
    {
      var targets := new BindingTargets();
      ghost var start := State(targets);
      assert start == InitialState(old(diagnostics));
      ParseAnnotationKinds(types, env, targets, Annotations);
      ghost var scanned := State(targets);
      ScanKindsKeepsValid(types, env, start, Annotations);
      assert ValidState(types, scanned);
      bindingMap, bindingOrder := BuildBindings(types, rank, targets.builderMap, targets.builderOrder, targets.erasedTargetNames);
    }

    /** The outer scan loop: each annotation kind in turn, in the order of `kinds`. */
    method ParseAnnotationKinds(types: map<TypeId, TypeElement>, env: RoundEnvironment, targets: BindingTargets, kinds: seq<ValueKind>)
      requires WellFormedRound(types, env)
      modifies this, targets
      ensures State(targets) == ScanKinds(types, env, old(State(targets)), kinds)
    {
      ghost var start := State(targets);
      for i := 0 to |kinds|
        invariant ScanKinds(types, env, State(targets), kinds[i..]) == ScanKinds(types, env, start, kinds)
      {
        var annotationClass := kinds[i];
        var elements := env.ElementsAnnotatedWith(annotationClass);
        assert kinds[i..] == [annotationClass] + kinds[i + 1..];
        ParseAnnotatedElements(types, targets, annotationClass, elements);
      }
    }

    /** The inner scan loop over the elements carrying one annotation kind. */
    method ParseAnnotatedElements(types: map<TypeId, TypeElement>, targets: BindingTargets, annotationClass: ValueKind, elements: seq<Element>)
      requires ScannableElements(types, annotationClass, elements)
      modifies this, targets
      ensures State(targets) == ScanElements(types, old(State(targets)), annotationClass, elements)
    {
      ghost var before := State(targets);
      for j := 0 to |elements|
        invariant ScanElements(types, State(targets), annotationClass, elements[j..])
               == ScanElements(types, before, annotationClass, elements)
      {
        var element := elements[j];
        assert elements[j..] == [element] + elements[j + 1..];
        if element.enclosing.EnclosedByMethod? {
          continue;
        }
        ParseAnnotations(types, element, targets, annotationClass);
      }
    }

    /**
     * The worklist: hosts are taken from the front of the queue in builder-map order; a host
     * whose nearest bound ancestor is not built yet is moved to the back.
     */
    method BuildBindings(types: map<TypeId, TypeElement>, ghost rank: map<TypeId, nat>,
                         builders: map<TypeId, Builder>, order: seq<TypeId>, bound: set<TypeId>)
      returns (bindingMap: map<TypeId, BundleSet>, bindingOrder: seq<TypeId>)
      requires WellFormedHierarchy(types, rank) && HostsKnown(types, builders)
      requires Distinct(order) && (forall t :: t in builders <==> t in order)
      requires bound <= builders.Keys
      ensures Linked(types, rank, bound, builders, bindingMap, bindingOrder)
    {
      var queue := order;
      bindingMap := map[];
      bindingOrder := [];
      ghost var k: nat := 0;
      if |queue| > 0 {
        k := ReadyEntry(types, rank, bound, builders, queue, bindingMap);
      }
      while |queue| > 0
        invariant Worklist(types, rank, bound, builders, queue, bindingMap, bindingOrder)
        invariant |queue| > 0 ==> k < |queue| && Ready(types, rank, bound, bindingMap, queue[k])
        decreases |queue|, k
      {
        var entry := queue[0];
        var parentType := FindParentType(types, rank, entry, bound);
        if parentType.None? {
          BuildFront(types, rank, bound, builders, queue, bindingMap, bindingOrder, builders[entry].Build());
          bindingMap := bindingMap[entry := builders[entry].Build()];
        } else if parentType.value in bindingMap {
          var parentBinding := bindingMap[parentType.value];
          BuildFront(types, rank, bound, builders, queue, bindingMap, bindingOrder, builders[entry].SetParent(parentBinding).Build());
          bindingMap := bindingMap[entry := builders[entry].SetParent(parentBinding).Build()];
        } else {
          // the parent binding is not built yet: move the host to the back of the queue
          DeferFront(types, rank, bound, builders, queue, bindingMap, bindingOrder, k);
          queue := queue[1..] + [entry];
          k := k - 1;
          continue;
        }
        bindingOrder := bindingOrder + [entry];
        queue := queue[1..];
        if |queue| > 0 {
          k := ReadyEntry(types, rank, bound, builders, queue, bindingMap);
        }
      }
    }

    /** Walks up the superclass chain from `typeElement` to the first type in `parents`. */
    method FindParentType(types: map<TypeId, TypeElement>, ghost rank: map<TypeId, nat>, typeElement: TypeId, parents: set<TypeId>)
      returns (r: Option<TypeId>)
      requires WellFormedHierarchy(types, rank) && typeElement in types
      ensures r == NearestBoundAncestor(types, rank, parents, typeElement)
      ensures r.Some? ==> r.value in parents && r.value != typeElement
    {
      var current := typeElement;
      while true
        invariant current in types
        invariant NearestBoundAncestor(types, rank, parents, current) == NearestBoundAncestor(types, rank, parents, typeElement)
        decreases rank[current]
      {
        var superclass := types[current].superclass;
        if superclass.None? {
          return None;
        }
        current := superclass.value;
        if current in parents {
          r := Some(current);
          NearestBoundIsBoundAncestor(types, rank, parents, typeElement);
          return;
        }
      }
    }

    /**
     * Parses one field element: the validity checks, then the duplicate checks against the
     * host's builder, then the new field is appended to the host's builder.
     */
    method ParseAnnotations(types: map<TypeId, TypeElement>, element: Element, targets: BindingTargets, annotationClass: ValueKind)
      requires Parsable(types, annotationClass, element)
      modifies this, targets
      ensures State(targets) == ParseElement(types, old(State(targets)), annotationClass, element)
    {
      ghost var st := State(targets);
      var enclosingElement := element.enclosing.host;
      var hasError := IsInaccessibleViaGeneratedCode(types, annotationClass, element);
      if !hasError {
        hasError := IsBindingInWrongPackage(types, annotationClass, element);
      }
      ghost var errors := ValidationDiagnostics(annotationClass, element, types[enclosingElement]);
      assert hasError <==> errors != [];
      if hasError {
        assert diagnostics == st.diagnostics + errors;
        return;
      }
      assert diagnostics == st.diagnostics;
      var name := element.name;
      var value := element.annotations[annotationClass];
      var required := element.required;
      var builder: Builder;
      if enclosingElement in targets.builderMap {
        builder := targets.builderMap[enclosingElement];
        var existingBinding := builder.FindExistingBindingByValue(value);
        if existingBinding.Some? {
          diagnostics := diagnostics + [DuplicateKey(annotationClass, value, existingBinding.value.name,
                                                     types[enclosingElement].qualifiedName, name)];
          return;
        }
        existingBinding := builder.FindExistingBindingByName(name);
        if existingBinding.Some? {
          diagnostics := diagnostics + [DuplicateName(annotationClass, existingBinding.value.annotation,
                                                      types[enclosingElement].qualifiedName, existingBinding.value.name)];
          return;
        }
      } else {
        builder := NewBuilder(enclosingElement);
        targets.builderMap := targets.builderMap[enclosingElement := builder];
        targets.builderOrder := targets.builderOrder + [enclosingElement];
      }
      builder := builder.AddField(FieldBinding(name, annotationClass, value, element.fieldType, required));
      targets.builderMap := targets.builderMap[enclosingElement := builder];
      targets.erasedTargetNames := targets.erasedTargetNames + {enclosingElement};
      assert targets.builderMap == st.builders[enclosingElement := builder];
    }

    /** The three access checks; every failing one reports its own error. */
    method IsInaccessibleViaGeneratedCode(types: map<TypeId, TypeElement>, annotationClass: ValueKind, element: Element)
      returns (hasError: bool)
      requires Parsable(types, annotationClass, element)
      modifies this
      ensures var host := types[element.enclosing.host];
        hasError <==> Private in element.modifiers || Static in element.modifiers || host.kind != Class || Private in host.modifiers
      ensures diagnostics == old(diagnostics) + AccessDiagnostics(annotationClass, element, types[element.enclosing.host])
    {
      hasError := false;
      var enclosingElement := types[element.enclosing.host];
      if Private in element.modifiers || Static in element.modifiers {
        diagnostics := diagnostics + [PrivateOrStaticField(annotationClass, enclosingElement.qualifiedName, element.name)];
        hasError := true;
      }
      if enclosingElement.kind != Class {
        diagnostics := diagnostics + [FieldOutsideClass(annotationClass, enclosingElement.qualifiedName, element.name)];
        hasError := true;
      }
      if Private in enclosingElement.modifiers {
        diagnostics := diagnostics + [FieldInPrivateClass(annotationClass, enclosingElement.qualifiedName, element.name)];
        hasError := true;
      }
    }

    /** The reserved-namespace check on the host's qualified name. */
    method IsBindingInWrongPackage(types: map<TypeId, TypeElement>, annotationClass: ValueKind, element: Element)
      returns (wrong: bool)
      requires Parsable(types, annotationClass, element)
      modifies this
      ensures var qualifiedName := types[element.enclosing.host].qualifiedName;
        wrong <==> "android." <= qualifiedName || "java." <= qualifiedName
      ensures diagnostics == old(diagnostics) + PackageDiagnostics(annotationClass, types[element.enclosing.host])
    {
      var qualifiedName := types[element.enclosing.host].qualifiedName;
      if "android." <= qualifiedName {
        diagnostics := diagnostics + [AndroidFrameworkPackage(annotationClass, qualifiedName)];
        return true;
      }
      if "java." <= qualifiedName {
        diagnostics := diagnostics + [JavaFrameworkPackage(annotationClass, qualifiedName)];
        return true;
      }
      return false;
    }
  }
}
