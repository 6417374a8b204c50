# AutoBundle core in Dafny

AutoBundle maps annotated fields and annotated interface-method parameters onto an Android
`Bundle`, a string-keyed container of typed values. This project models its two engines and
proves properties of the models.

**The compile-time binding resolver (`AutoBundleProcessor`)** works in two phases.
- **Scan.** It scans every field carrying one of the 28 binding annotations, one annotation
  kind at a time, in the order of the processor's annotation list.
  - It skips elements enclosed by a method (parameters).
  - It checks each field's access: the field is not private or static, its host is a class,
    and that class is not private. All three checks run.
  - Only when the access checks pass does it check the host's package (not `android.` or
    `java.`).
  - It rejects a second field in the same host that reuses a container key or a field name.
  - Otherwise it appends the field to the host's builder. The builder is created the first
    time its host is seen.
- **Link.** It links each host's binding to the binding of its nearest bound superclass. This
  is a FIFO worklist: a host whose parent binding is not built yet goes to the back of the
  queue.

**The runtime factory compiler (`BundleFactory`)**:
- It validates a service method: the method must return `Bundle`, and each parameter must
  carry exactly one binding annotation whose class is assignable from the parameter's raw type.
- It builds one parameter handler per parameter and memoises the factory per method.
- Invoking a factory checks the argument count, then applies the handlers in order to one
  fresh container.

Files, one module each:
- `results.dfy`: `Option` (Java's null) and `Result` (a value or a thrown error).
- `program_model.dfy`: the elements and type elements the processor reads.
  - The superclass links form an acyclic hierarchy. A ghost rank map witnesses the acyclicity.
  - `NearestBoundAncestor` is the reference definition of the parent-type search.
- `bundle_set.dfy`: the binding specification (`BundleSet`) and its builder, modelled from
  how the processor uses them.
- `scan.dfy`: the scan phase as a specification on values.
  - `ParseElement` defines one element's effect on the builder map, the host order, the
    bound-host set and the diagnostics.
  - `ScanElements` and `ScanKinds` fold `ParseElement` over a round.
- `processor.dfy`: the processor as imperative code, with each method proved against the
  scan specification and the linking predicate `Linked`.
  - `BindingTargets` holds the builder map and the bound-host set.
  - `AutoBundleProcessor` holds the diagnostics printed so far.
- `bundle_factory.dfy`: the runtime factory compiler.
  - `ExpectedParameter` is the reference outcome of one parameter, stated over its binding
    annotations. `Builder.ParseParameter` and `Builder.Build` are proved against it.
  - `BundleFactoryCache` is the memo cache. Its invariant makes a cache hit indistinguishable
    from a fresh build.

## Model

Source paths are relative to the repository root.

| member | source | states |
|---|---|---|
| ProgramModel.RoundEnvironment.ElementsAnnotatedWith | autobundle-compiler/src/main/java/autobundle/compiler/AutoBundleProcessor.java:144 | exactly the round's elements that carry the annotation kind are returned |
| ProgramModel.AncestorRankBelow | autobundle-compiler/src/main/java/autobundle/compiler/AutoBundleProcessor.java:240-249 | every strict superclass ancestor is a known type of lower rank, so the superclass walk never returns to its start |
| ProgramModel.NearestBoundIsBoundAncestor | autobundle-compiler/src/main/java/autobundle/compiler/AutoBundleProcessor.java:237-250 | the nearest bound ancestor is in the parent set, is a strict ancestor and is never the starting type |
| ProgramModel.NearestBoundIsNearest | autobundle-compiler/src/main/java/autobundle/compiler/AutoBundleProcessor.java:237-250 | any bound strict ancestor is the nearest one or lies above it; when none exists, the search finds nothing |
| BundleSets.Builder.FindExistingBindingByValue | autobundle-compiler/src/main/java/autobundle/compiler/AutoBundleProcessor.java:209 | a found binding is one of the builder's fields and uses the key; nothing is found exactly when no field uses the key |
| BundleSets.Builder.FindExistingBindingByName | autobundle-compiler/src/main/java/autobundle/compiler/AutoBundleProcessor.java:216 | a found binding is one of the builder's fields and has the name; nothing is found exactly when no field has it |
| BundleSets.Builder.AddField | autobundle-compiler/src/main/java/autobundle/compiler/AutoBundleProcessor.java:229 | the field becomes the builder's last field; earlier fields, host and parent stay |
| BundleSets.Builder.SetParent | autobundle-compiler/src/main/java/autobundle/compiler/AutoBundleProcessor.java:179 | the builder is linked to the given parent binding; host and fields stay |
| BundleSets.Builder.Build | autobundle-compiler/src/main/java/autobundle/compiler/AutoBundleProcessor.java:175-180 | the finished binding keeps the builder's host, its fields in order and its parent |
| BundleSets.NewBuilder | autobundle-compiler/src/main/java/autobundle/compiler/AutoBundleProcessor.java:224 | a new builder for the host has no fields and no parent, so its keys and names are trivially unique |
| BundleSets.AddFieldKeepsUnique | autobundle-compiler/src/main/java/autobundle/compiler/AutoBundleProcessor.java:207-229 | adding a field whose key and name are unused keeps keys and names unique, puts the field last and changes no earlier field |
| Scan.AccessDiagnostics | autobundle-compiler/src/main/java/autobundle/compiler/AutoBundleProcessor.java:252-283 | each of the three access errors is reported exactly when its own condition holds, and the number of errors is the number of failing checks, so each appears once and nothing else is reported; none is reported exactly when all three checks pass |
| Scan.PackageDiagnostics | autobundle-compiler/src/main/java/autobundle/compiler/AutoBundleProcessor.java:285-302 | at most one error, reported exactly when the host's qualified name starts with `android.` or `java.`: the Android-package error for `android.`, otherwise the Java-package error for `java.` |
| Scan.MethodEnclosedSkipped | autobundle-compiler/src/main/java/autobundle/compiler/AutoBundleProcessor.java:146-151 | an element enclosed by a method changes nothing: no builder, no bound host, no error |
| Scan.ParseElementRejects | autobundle-compiler/src/main/java/autobundle/compiler/AutoBundleProcessor.java:194-222 | a rejected field leaves builders, host order and bound set unchanged and appends its errors: all failing access errors; else the single package error; else one duplicate-key error; else one duplicate-name error |
| Scan.ParseElementAccepts | autobundle-compiler/src/main/java/autobundle/compiler/AutoBundleProcessor.java:207-231 | an accepted field is appended last to its host's builder, which is created and appended to the host order on first sight; the host joins the bound set; nothing else changes |
| Scan.ParseElementKeepsValid | autobundle-compiler/src/main/java/autobundle/compiler/AutoBundleProcessor.java:190-232 | parsing a field keeps the scan invariant: hosts distinct in order, bound set equals the builder keys, builders unlinked with unique keys and names |
| Scan.AddFieldKeepsValid | autobundle-compiler/src/main/java/autobundle/compiler/AutoBundleProcessor.java:223-231 | appending a fresh field under a known host keeps the scan invariant |
| Scan.VisitElementKeepsValid | autobundle-compiler/src/main/java/autobundle/compiler/AutoBundleProcessor.java:146-158 | visiting an element (skip or parse) keeps the invariant, only appends diagnostics and only grows the bound set |
| Scan.ScanElementsKeepsValid | autobundle-compiler/src/main/java/autobundle/compiler/AutoBundleProcessor.java:144-159 | scanning one kind's elements keeps the invariant, only appends diagnostics and only grows the bound set |
| Scan.ScanKindsKeepsValid | autobundle-compiler/src/main/java/autobundle/compiler/AutoBundleProcessor.java:142-160 | the whole scan keeps the invariant, only appends diagnostics and only grows the bound set |
| Processor.BindingTargets.constructor | autobundle-compiler/src/main/java/autobundle/compiler/AutoBundleProcessor.java:139-140 | the builder map, its order and the bound set start empty |
| Processor.AutoBundleProcessor.constructor | autobundle-compiler/src/main/java/autobundle/compiler/AutoBundleProcessor.java:113-118 | the processor starts with no diagnostics reported |
| Processor.AutoBundleProcessor.IsInaccessibleViaGeneratedCode | autobundle-compiler/src/main/java/autobundle/compiler/AutoBundleProcessor.java:252-283 | true exactly when some access check fails; the errors printed are exactly the access errors of the field |
| Processor.AutoBundleProcessor.IsBindingInWrongPackage | autobundle-compiler/src/main/java/autobundle/compiler/AutoBundleProcessor.java:285-302 | true exactly when the host is in the `android.` or `java.` namespace; prints exactly the package error |
| Processor.AutoBundleProcessor.ParseAnnotations | autobundle-compiler/src/main/java/autobundle/compiler/AutoBundleProcessor.java:190-232 | the new builder map, host order, bound set and diagnostics are exactly `ParseElement` of the old ones |
| Processor.AutoBundleProcessor.ParseAnnotatedElements | autobundle-compiler/src/main/java/autobundle/compiler/AutoBundleProcessor.java:144-159 | the inner loop's final state is `ScanElements` of its initial state: method-enclosed elements are skipped, the others parsed in order |
| Processor.AutoBundleProcessor.ParseAnnotationKinds | autobundle-compiler/src/main/java/autobundle/compiler/AutoBundleProcessor.java:142-160 | the outer loop's final state is `ScanKinds` of its initial state, kind by kind |
| Processor.AutoBundleProcessor.FindParentType | autobundle-compiler/src/main/java/autobundle/compiler/AutoBundleProcessor.java:237-250 | the loop returns the nearest strict ancestor in the parent set, or none when the chain ends; never the starting type |
| Processor.MinRankIndex | autobundle-compiler/src/main/java/autobundle/compiler/AutoBundleProcessor.java:167-186 | a non-empty queue has a position holding a host of least rank |
| Processor.ReadyEntry | autobundle-compiler/src/main/java/autobundle/compiler/AutoBundleProcessor.java:167-186 | while hosts remain queued, some queued host is ready (no bound ancestor, or its parent binding is built): the termination argument of the worklist |
| Processor.BuildReadyHost | autobundle-compiler/src/main/java/autobundle/compiler/AutoBundleProcessor.java:173-180 | building a ready host from its builder, linked to its parent's binding, keeps every binding built from its builder and every parent built first |
| Processor.BuildFront | autobundle-compiler/src/main/java/autobundle/compiler/AutoBundleProcessor.java:168-180 | taking a ready host off the front and building it keeps the worklist state: every builder is queued once or built once |
| Processor.DeferFront | autobundle-compiler/src/main/java/autobundle/compiler/AutoBundleProcessor.java:181-184 | moving an unready host to the back keeps the worklist state and leaves the host unbuilt; the ready host moves one place forward |
| Processor.AutoBundleProcessor.BuildBindings | autobundle-compiler/src/main/java/autobundle/compiler/AutoBundleProcessor.java:164-187 | the worklist terminates; the binding keys equal the builder keys; each host is built once; each binding comes from its own builder, linked to the already built binding of its nearest bound ancestor |
| Processor.AutoBundleProcessor.FindAndParseTargets | autobundle-compiler/src/main/java/autobundle/compiler/AutoBundleProcessor.java:138-188 | the diagnostics are those of the scan over all 28 kinds; the scanned state is valid; the bindings linked from its builders are as in `BuildBindings` |
| Processor.LinkingIsUnique | autobundle-compiler/src/main/java/autobundle/compiler/AutoBundleProcessor.java:162-187 | any two binding maps built by the linking rule from the same builders are equal, whatever the queue order |
| Processor.LinkedBindingShape | autobundle-compiler/src/main/java/autobundle/compiler/AutoBundleProcessor.java:173-180 | each binding keeps its builder's host and fields; its parent is the nearest bound ancestor's binding, or none |
| Factory.IsRequired | autobundle-api/src/main/java/autobundle/BundleFactory.java:170-179 | true exactly when the annotation array is present and holds `@Required` |
| Factory.HasRequired | autobundle-api/src/main/java/autobundle/BundleFactory.java:172-176 | true exactly when some position of the annotations holds `@Required` |
| Factory.CheckParameterType | autobundle-api/src/main/java/autobundle/BundleFactory.java:161-168 | no error exactly when the kind's class is assignable from the raw type; the error names the annotation and the raw type |
| Factory.ParseParameterAnnotation | autobundle-api/src/main/java/autobundle/BundleFactory.java:139-158 | a non-binding annotation (including `@Required`) yields no handler; a binding one succeeds exactly when its class is assignable and then yields the int handler with its key and the required flag; a failure is the type error |
| Factory.HandlerForgetsKind | autobundle-api/src/main/java/autobundle/BundleFactory.java:141-149 | `@IntValue(key)` on an int parameter and `@StringValue(key)` on a String parameter both give the int handler with that key: the handler does not record the kind |
| Factory.BindingAnnotationsMembers | autobundle-api/src/main/java/autobundle/BundleFactory.java:115-121 | the annotations that yield a handler are exactly the binding annotations of the parameter |
| Factory.NoAnnotationIff | autobundle-api/src/main/java/autobundle/BundleFactory.java:131-133 | "no annotation" is the outcome exactly when no annotation of the parameter is a binding annotation |
| Factory.ParameterSuccess | autobundle-api/src/main/java/autobundle/BundleFactory.java:111-136 | success needs exactly one binding annotation, of assignable class; the handler has its key and is required exactly when `@Required` is present |
| Factory.MultipleAnnotationsRejected | autobundle-api/src/main/java/autobundle/BundleFactory.java:122-125 | when every binding annotation of the parameter type-checks, two or more of them make it fail with "multiple annotations" (`Factory.SecondBindingAt` gives the case where only the first two are known to pass) |
| Factory.WrongTypeNamesAnnotation | autobundle-api/src/main/java/autobundle/BundleFactory.java:161-168 | a type error names a binding annotation of the parameter whose class is not assignable, and the parameter's raw type |
| Factory.RequiredAloneIsNoAnnotation | autobundle-api/src/main/java/autobundle/BundleFactory.java:156-157 | a parameter carrying only `@Required` fails with "no annotation" |
| Factory.TypeErrorAt | autobundle-api/src/main/java/autobundle/BundleFactory.java:115-120 | a binding annotation failing its type check, after at most one that passed, is the parameter's error |
| Factory.SecondBindingAt | autobundle-api/src/main/java/autobundle/BundleFactory.java:122-125 | a second binding annotation that passes its type check is the "multiple annotations" error |
| Factory.Builder.constructor | autobundle-api/src/main/java/autobundle/BundleFactory.java:95-100 | the builder holds the service method and the assignability relation; no handler is built yet |
| Factory.Builder.ParseParameter | autobundle-api/src/main/java/autobundle/BundleFactory.java:111-136 | the loop's outcome is `ExpectedParameter` |
| Factory.HandlerOnlyFromParameter | autobundle-api/src/main/java/autobundle/BundleFactory.java:105-107 | a parameter's outcome depends on that parameter alone: at any position of any method it succeeds or fails alike, with the same handler, and an error differs only in the method and position it names |
| Factory.CollectHandlers | autobundle-api/src/main/java/autobundle/BundleFactory.java:102-109 | success exactly when every parameter succeeds, with one handler per parameter in order; otherwise the error of the first failing parameter |
| Factory.CollectFirstFailure | autobundle-api/src/main/java/autobundle/BundleFactory.java:105-107 | the first failing parameter's error is the build's error |
| Factory.Builder.Build | autobundle-api/src/main/java/autobundle/BundleFactory.java:102-109 | a fresh handler array as long as the parameter list, entry `p` the handler of parameter `p`; else the first parameter error |
| Factory.ExpectedFactory | autobundle-api/src/main/java/autobundle/BundleFactory.java:54-60 | "must return Bundle" exactly when the return type is not `Bundle`; on success one handler per parameter from that parameter; any other failure is a parameter's error |
| Factory.ParseAnnotations | autobundle-api/src/main/java/autobundle/BundleFactory.java:54-60 | the result is `ExpectedFactory` |
| Factory.BundleFactoryCache.constructor | autobundle-api/src/main/java/autobundle/BundleFactory.java:39 | the cache starts empty and consistent |
| Factory.BundleFactoryCache.LoadBundleFactory | autobundle-api/src/main/java/autobundle/BundleFactory.java:41-52 | the result is always `ExpectedFactory`; a hit returns the cached factory and changes nothing; a miss caches a success under the method only, and caches nothing on failure |
| Factory.BundleFactory.Invoke | autobundle-api/src/main/java/autobundle/BundleFactory.java:68-81 | a wrong argument count fails before any handler is applied; otherwise the result is the handlers applied in order to one fresh container |
| Factory.AppliesEachHandlerOnceInOrder | autobundle-api/src/main/java/autobundle/BundleFactory.java:76-80 | with a recording container, handler `p` is applied exactly once, to argument `p`, in increasing order |

## Left out

- Code emission and file writing (`brewJava`, `writeTo` and the write-error report):
  JavaPoet and Filer I/O.
- Message text: each diagnostic is a record of its message arguments. The Messager is an
  append-only list of diagnostics.
- The `try`/`catch` around `parseAnnotations` and `logParsingError`. They catch only reflection
  and cast failures, which cannot happen on the well-typed records the model takes as input.
- Reflection: the annotation's `value()` key, the `@Required` flag, the field's declared type
  name, parameter types and annotations, and `Utils.getRawType` are plain input data.
  `RawType` covers only plain classes and parameterized types.
- `Class.isAssignableFrom` is an abstract relation passed in, not Java's subtype rules.
- Concurrency in `loadBundleFactory`: the concurrent map, the lock and the second lookup under
  it. Sequentially the second lookup always misses after the first one missed, so the model
  makes one lookup.
- `ParameterHandler.apply`, the typed `Bundle` setters and the required-value check inside
  `apply`: apply is an abstract function over an abstract container, and it may fail.
  `Invoke` applies handlers to a value that is threaded through. The in-place mutation of one
  `Bundle` object is not modelled.
- `BundleSet.Builder` is a value here. Replacing the builder in the map stands for mutating
  the builder object in place; no other reference to a builder exists during the scan.
- `BundleSet` and `FieldBundleBinding` are modelled from how their callers use them: the
  five builder operations the processor calls.
- `ParameterHandler` is modelled from how `BundleFactory` constructs it: only its int
  handler's key and required flag.
- The worklist queue holds host identities rather than map entries. The entry's builder is
  looked up in the builder map, which does not change after the scan.
- The hierarchy's acyclicity is a precondition, witnessed by a ghost rank map. The compiler
  guarantees it; the Java code does not check it.
- Framework hooks (`init` beyond a processor with nothing reported yet,
  `getSupportedAnnotationTypes`, `getSupportedSourceVersion`, `process`), the sample app
  classes and the `Unbox` annotation declaration.
- `parseParameter` type-checks each binding annotation as it meets it, so a type error on the
  first or second binding annotation wins over "multiple annotations", and "multiple
  annotations" is reported only when the second binding annotation type-checks. The model
  follows this order (`ExpectedParameter`).
- Every binding kind constructs `IntParameterHandler`, whatever the annotation's own kind; the
  model keeps that (`Factory.HandlerForgetsKind`).
