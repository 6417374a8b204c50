/**
 * The runtime side: from a service-interface method, a factory holding one parameter handler per
 * parameter, memoised per method; invoking the factory applies the handlers positionally to one
 * fresh container.  Reflection is replaced by plain records, class assignability by an abstract
 * relation, and the container and `ParameterHandler.apply` by abstract parameters.
 */
module Factory {
  import opened Results

  /** The classes the factory tells apart; every other class is `OtherClass`. */
  datatype JavaClass = IntType | BooleanType | StringClass | CharSequenceClass | SerializableClass | BundleClass
                     | OtherClass(name: string)

  /** A reflected type: a plain class, or a parameterized type over a raw class. */
  datatype JavaType = ClassType(cls: JavaClass) | ParameterizedType(raw: JavaClass)

  /** The raw class of a reflected type. */
  function RawType(t: JavaType): JavaClass {
    match t
    case ClassType(c) => c
    case ParameterizedType(raw) => raw
  }

  /** An annotation on a parameter: the five binding kinds with their key, `@Required`, or anything else. */
  datatype Annotation =
    | IntValue(value: string)
    | BooleanValue(value: string)
    | StringValue(value: string)
    | CharSequenceValue(value: string)
    | SerializableValue(value: string)
    | Required
    | OtherAnnotation(name: string)

  /** One parameter: its declared type and its annotations (`None` for a null annotation array). */
  datatype Parameter = Parameter(parameterType: JavaType, annotations: Option<seq<Annotation>>)

  /** A service-interface method, compared by value as `Method.equals` does. */
  datatype JavaMethod = JavaMethod(declaringClass: string, name: string, returnType: JavaType, parameters: seq<Parameter>)

  datatype Message =
    | MustReturnBundle
    | MultipleAnnotations
    | NoAnnotation
    | WrongParameterType(annotation: Annotation, rawType: JavaClass)

  /** The two kinds of error the factory throws: about the method, or about one parameter. */
  datatype FactoryError =
    | MethodError(serviceMethod: JavaMethod, message: Message)
    | ParameterError(serviceMethod: JavaMethod, index: nat, message: Message)

  /**
   * The parameter handler: every binding kind constructs the int handler, whatever the
   * annotation's own kind, with the annotation's key and the parameter's required flag.
   */
  datatype ParameterHandler = IntParameterHandler(key: string, required: bool)

  /** `Class.isAssignableFrom`: `IsAssignableFrom(c, d)` when a value of class `d` is a `c`. */
  type Assignability = (JavaClass, JavaClass) -> bool

  predicate IsBindingAnnotation(a: Annotation) {
    !a.Required? && !a.OtherAnnotation?
  }

  /** The class a binding annotation's parameter must be assignable to. */
  function BindingClass(a: Annotation): JavaClass
    requires IsBindingAnnotation(a)
  {
    match a
    case IntValue(_) => IntType
    case BooleanValue(_) => BooleanType
    case StringValue(_) => StringClass
    case CharSequenceValue(_) => CharSequenceClass
    case SerializableValue(_) => SerializableClass
  }

  /** The annotations of a parameter, reading a null annotation array as empty. */
  function AnnotationsOf(annotations: Option<seq<Annotation>>): seq<Annotation> {
    if annotations.None? then [] else annotations.value
  }

  /** `required(annotations)`: some annotation on the parameter is `@Required`. */
  function IsRequired(annotations: Option<seq<Annotation>>): (r: bool)
    ensures r <==> annotations.Some? && Required in annotations.value
  {
    annotations.Some? && HasRequired(annotations.value)
  }

  function HasRequired(annotations: seq<Annotation>): (r: bool)
    ensures r <==> exists i :: 0 <= i < |annotations| && annotations[i] == Required
  {
    if annotations == [] then false
    else if annotations[0] == Required then true
    else
      var r := HasRequired(annotations[1..]);
      assert forall i :: 1 <= i < |annotations| ==> annotations[i] == annotations[1..][i - 1];
      r
  }

  /** `checkParameterType`: the error when `rightClass` is not assignable from the parameter's raw type. */
  function CheckParameterType(m: JavaMethod, p: nat, annotation: Annotation, t: JavaType, rightClass: JavaClass,
                              isAssignableFrom: Assignability): (r: Option<FactoryError>)
    ensures r.None? <==> isAssignableFrom(rightClass, RawType(t))
    ensures r.Some? ==> r.value == ParameterError(m, p, WrongParameterType(annotation, RawType(t)))
  {
    var rawType := RawType(t);
    if !isAssignableFrom(rightClass, rawType) then Some(ParameterError(m, p, WrongParameterType(annotation, rawType)))
    else None
  }

  /** The handler of one binding annotation once its type check has passed. */
  function Checked(check: Option<FactoryError>, handler: ParameterHandler): Result<Option<ParameterHandler>, FactoryError> {
    if check.Some? then Failure(check.value) else Success(Some(handler))
  }

  /**
   * `parseParameterAnnotation`: the dispatch on the annotation's kind.  A binding annotation is
   * type-checked against its kind's class and yields the int handler with its key; any other
   * annotation (including `@Required`) yields no handler.
   */
  function ParseParameterAnnotation(m: JavaMethod, p: nat, t: JavaType, annotation: Annotation, required: bool,
                                    isAssignableFrom: Assignability): (r: Result<Option<ParameterHandler>, FactoryError>)
    ensures !IsBindingAnnotation(annotation) ==> r == Success(None)
    ensures IsBindingAnnotation(annotation) ==>
      (r.Success? <==> isAssignableFrom(BindingClass(annotation), RawType(t)))
    ensures IsBindingAnnotation(annotation) && r.Success? ==>
      r.value == Some(IntParameterHandler(annotation.value, required))
    ensures r.Failure? ==> r.error == ParameterError(m, p, WrongParameterType(annotation, RawType(t)))
  {
    match annotation
    case IntValue(key) =>
      Checked(CheckParameterType(m, p, annotation, t, IntType, isAssignableFrom), IntParameterHandler(key, required))
    case BooleanValue(key) =>
      Checked(CheckParameterType(m, p, annotation, t, BooleanType, isAssignableFrom), IntParameterHandler(key, required))
    case StringValue(key) =>
      Checked(CheckParameterType(m, p, annotation, t, StringClass, isAssignableFrom), IntParameterHandler(key, required))
    case CharSequenceValue(key) =>
      Checked(CheckParameterType(m, p, annotation, t, CharSequenceClass, isAssignableFrom), IntParameterHandler(key, required))
    case SerializableValue(key) =>
      Checked(CheckParameterType(m, p, annotation, t, SerializableClass, isAssignableFrom), IntParameterHandler(key, required))
    case _ => Success(None)
  }

  /**
   * `@IntValue(key)` on an int parameter and `@StringValue(key)` on a String parameter give the
   * same handler: the handler does not record the annotation's kind.
   */
  lemma HandlerForgetsKind(m1: JavaMethod, p1: nat, t1: JavaType, m2: JavaMethod, p2: nat, t2: JavaType,
                           key: string, required: bool, isAssignableFrom: Assignability)
    requires isAssignableFrom(IntType, RawType(t1)) && isAssignableFrom(StringClass, RawType(t2))
    ensures ParseParameterAnnotation(m1, p1, t1, IntValue(key), required, isAssignableFrom)
         == ParseParameterAnnotation(m2, p2, t2, StringValue(key), required, isAssignableFrom)
         == Success(Some(IntParameterHandler(key, required)))
  {
  }

  /** The binding annotations among `s`, in order. */
  function BindingAnnotations(s: seq<Annotation>): (r: seq<Annotation>)
    ensures |r| <= |s|
    ensures forall i :: 0 <= i < |r| ==> IsBindingAnnotation(r[i])
  {
    if s == [] then []
    else (if IsBindingAnnotation(s[0]) then [s[0]] else []) + BindingAnnotations(s[1..])
  }

  /** The binding annotations among `s` are exactly the annotations of `s` that are binding annotations. */
  lemma {:induction false} BindingAnnotationsMembers(s: seq<Annotation>)
    ensures forall a :: a in BindingAnnotations(s) <==> a in s && IsBindingAnnotation(a)
  {
    if s != [] {
      BindingAnnotationsMembers(s[1..]);
      assert s == [s[0]] + s[1..];
    }
  }

  lemma {:induction false} BindingAnnotationsAppend(s: seq<Annotation>, t: seq<Annotation>)
    ensures BindingAnnotations(s + t) == BindingAnnotations(s) + BindingAnnotations(t)
  {
    if s == [] {
      assert s + t == t;
    } else {
      assert (s + t)[0] == s[0];
      assert (s + t)[1..] == s[1..] + t;
      BindingAnnotationsAppend(s[1..], t);
      calc {
        BindingAnnotations(s + t);
        (if IsBindingAnnotation(s[0]) then [s[0]] else []) + BindingAnnotations(s[1..] + t);
        (if IsBindingAnnotation(s[0]) then [s[0]] else []) + (BindingAnnotations(s[1..]) + BindingAnnotations(t));
        BindingAnnotations(s) + BindingAnnotations(t);
      }
    }
  }

  /** Binding annotations at two positions make at least two binding annotations. */
  lemma {:induction false} TwoBindings(s: seq<Annotation>, i: nat, j: nat)
    requires i < j < |s| && IsBindingAnnotation(s[i]) && IsBindingAnnotation(s[j])
    ensures |BindingAnnotations(s)| >= 2
  {
    if i == 0 {
      assert s[j] == s[1..][j - 1];
      BindingAnnotationsMembers(s[1..]);
      assert s[j] in BindingAnnotations(s[1..]);
    } else {
      TwoBindings(s[1..], i - 1, j - 1);
    }
  }

  /**
   * What `parseParameter` yields for parameter `p`, stated over the parameter's binding
   * annotations: none is an error; otherwise the first must type-check; a single one gives
   * its handler; a second one must type-check too, and then two are an error.
   */
  function ExpectedParameter(m: JavaMethod, p: nat, param: Parameter, isAssignableFrom: Assignability)
    : Result<ParameterHandler, FactoryError>
  {
    var bs := BindingAnnotations(AnnotationsOf(param.annotations));
    var rawType := RawType(param.parameterType);
    if |bs| == 0 then Failure(ParameterError(m, p, NoAnnotation))
    else if !isAssignableFrom(BindingClass(bs[0]), rawType) then Failure(ParameterError(m, p, WrongParameterType(bs[0], rawType)))
    else if |bs| == 1 then Success(IntParameterHandler(bs[0].value, IsRequired(param.annotations)))
    else if !isAssignableFrom(BindingClass(bs[1]), rawType) then Failure(ParameterError(m, p, WrongParameterType(bs[1], rawType)))
    else Failure(ParameterError(m, p, MultipleAnnotations))
  }

  /** A parameter fails with "no annotation" exactly when none of its annotations is a binding annotation. */
  lemma NoAnnotationIff(m: JavaMethod, p: nat, param: Parameter, isAssignableFrom: Assignability)
    ensures var anns := AnnotationsOf(param.annotations);
      (ExpectedParameter(m, p, param, isAssignableFrom) == Failure(ParameterError(m, p, NoAnnotation)))
        <==> (forall a :: a in anns ==> !IsBindingAnnotation(a))
  {
    BindingAnnotationsMembers(AnnotationsOf(param.annotations));
    var bs := BindingAnnotations(AnnotationsOf(param.annotations));
    if |bs| > 0 {
      assert bs[0] in bs;
    }
  }

  /**
   * A parameter succeeds only with exactly one binding annotation, whose class is assignable
   * from the parameter's raw type; the handler carries that annotation's key and is required
   * exactly when `@Required` is among the annotations.
   */
  lemma ParameterSuccess(m: JavaMethod, p: nat, param: Parameter, isAssignableFrom: Assignability)
    requires ExpectedParameter(m, p, param, isAssignableFrom).Success?
    ensures var anns := AnnotationsOf(param.annotations);
      var h := ExpectedParameter(m, p, param, isAssignableFrom).value;
      && (exists a :: a in anns && IsBindingAnnotation(a) && a.value == h.key
                       && isAssignableFrom(BindingClass(a), RawType(param.parameterType)))
      && (forall i, j :: 0 <= i < j < |anns| ==> !(IsBindingAnnotation(anns[i]) && IsBindingAnnotation(anns[j])))
      && (h.required <==> param.annotations.Some? && Required in param.annotations.value)
  {
    BindingAnnotationsMembers(AnnotationsOf(param.annotations));
    var anns := AnnotationsOf(param.annotations);
    var bs := BindingAnnotations(anns);
    assert bs[0] in bs;
    forall i, j | 0 <= i < j < |anns|
      ensures !(IsBindingAnnotation(anns[i]) && IsBindingAnnotation(anns[j]))
    {
      if IsBindingAnnotation(anns[i]) && IsBindingAnnotation(anns[j]) {
        TwoBindings(anns, i, j);
      }
    }
  }

  /** Two binding annotations that both type-check make the parameter fail with "multiple annotations". */
  lemma MultipleAnnotationsRejected(m: JavaMethod, p: nat, param: Parameter, isAssignableFrom: Assignability, i: nat, j: nat)
    requires var anns := AnnotationsOf(param.annotations);
      i < j < |anns| && IsBindingAnnotation(anns[i]) && IsBindingAnnotation(anns[j])
    requires var anns := AnnotationsOf(param.annotations);
      forall a :: a in anns && IsBindingAnnotation(a) ==> isAssignableFrom(BindingClass(a), RawType(param.parameterType))
    ensures ExpectedParameter(m, p, param, isAssignableFrom) == Failure(ParameterError(m, p, MultipleAnnotations))
  {
    BindingAnnotationsMembers(AnnotationsOf(param.annotations));
    var bs := BindingAnnotations(AnnotationsOf(param.annotations));
    TwoBindings(AnnotationsOf(param.annotations), i, j);
    assert bs[0] in bs && bs[1] in bs;
  }

  /** A type error names a binding annotation of the parameter whose class is not assignable. */
  lemma WrongTypeNamesAnnotation(m: JavaMethod, p: nat, param: Parameter, isAssignableFrom: Assignability)
    requires var r := ExpectedParameter(m, p, param, isAssignableFrom);
      r.Failure? && r.error.message.WrongParameterType?
    ensures var e := ExpectedParameter(m, p, param, isAssignableFrom).error;
      && e == ParameterError(m, p, e.message)
      && e.message.annotation in AnnotationsOf(param.annotations)
      && IsBindingAnnotation(e.message.annotation)
      && !isAssignableFrom(BindingClass(e.message.annotation), RawType(param.parameterType))
      && e.message.rawType == RawType(param.parameterType)
  {
    BindingAnnotationsMembers(AnnotationsOf(param.annotations));
    var bs := BindingAnnotations(AnnotationsOf(param.annotations));
    assert bs[0] in bs;
    if |bs| > 1 {
      assert bs[1] in bs;
    }
  }

  /** `@Required` on its own is not a binding annotation. */
  lemma RequiredAloneIsNoAnnotation(m: JavaMethod, p: nat, t: JavaType, isAssignableFrom: Assignability)
    ensures ExpectedParameter(m, p, Parameter(t, Some([Required])), isAssignableFrom)
         == Failure(ParameterError(m, p, NoAnnotation))
  {
  }

  /**
   * A parameter's handler is derived from that parameter alone: the same parameter at another
   * position, or in another method, has the same outcome, up to the method and position its
   * error names.
   */
  lemma HandlerOnlyFromParameter(m1: JavaMethod, p1: nat, m2: JavaMethod, p2: nat, param: Parameter,
                                 isAssignableFrom: Assignability)
    ensures var r1, r2 := ExpectedParameter(m1, p1, param, isAssignableFrom), ExpectedParameter(m2, p2, param, isAssignableFrom);
      && (r1.Success? <==> r2.Success?)
      && (r1.Success? ==> r1 == r2)
      && (r1.Failure? ==>
            r1.error == ParameterError(m1, p1, r1.error.message) && r2.error == ParameterError(m2, p2, r1.error.message))
  {
  }

  /** The outcome of every parameter of `m`, in parameter order. */
  function Outcomes(m: JavaMethod, isAssignableFrom: Assignability): seq<Result<ParameterHandler, FactoryError>> {
    seq(|m.parameters|, i requires 0 <= i < |m.parameters| => ExpectedParameter(m, i, m.parameters[i], isAssignableFrom))
  }

  /** Outcome `i` (at or after `p`) fails with `e`, and every outcome from `p` up to it succeeds. */
  ghost predicate FirstFailure(os: seq<Result<ParameterHandler, FactoryError>>, p: nat, i: nat, e: FactoryError) {
    && p <= i < |os|
    && os[i] == Failure(e)
    && forall j :: p <= j < i ==> os[j].Success?
  }

  lemma FirstFailureExtends(os: seq<Result<ParameterHandler, FactoryError>>, p: nat, q: nat, e: FactoryError)
    requires q == p + 1 && p < |os| && os[p].Success?
    requires exists i :: FirstFailure(os, q, i, e)
    ensures exists i :: FirstFailure(os, p, i, e)
  {
    var i :| FirstFailure(os, q, i, e);
    assert FirstFailure(os, p, i, e);
  }

  /** The handlers of outcomes `p..` in order, or the error of the first outcome that fails. */
  function CollectHandlers(os: seq<Result<ParameterHandler, FactoryError>>, p: nat): (r: Result<seq<ParameterHandler>, FactoryError>)
    requires p <= |os|
    ensures r.Success? <==> forall i :: p <= i < |os| ==> os[i].Success?
    ensures r.Success? ==> |r.value| == |os| - p
    ensures r.Success? ==> forall i :: p <= i < |os| ==> r.value[i - p] == os[i].value
    ensures r.Failure? ==> exists i :: FirstFailure(os, p, i, r.error)
    decreases |os| - p
  {
    if p == |os| then Success([])
    else if os[p].Failure? then
      assert FirstFailure(os, p, p, os[p].error);
      Failure(os[p].error)
    else
      var rest := CollectHandlers(os, p + 1);
      if rest.Failure? then
        FirstFailureExtends(os, p, p + 1, rest.error);
        Failure(rest.error)
      else Success([os[p].value] + rest.value)
  }

  /** When outcomes `..p` succeed and outcome `p` fails, the collection fails with outcome `p`'s error. */
  lemma CollectFirstFailure(os: seq<Result<ParameterHandler, FactoryError>>, p: nat)
    requires p < |os| && os[p].Failure?
    requires forall j :: 0 <= j < p ==> os[j].Success?
    ensures CollectHandlers(os, 0) == Failure(os[p].error)
  {
  }

  /** When every outcome succeeds, the collection holds exactly their handlers. */
  lemma CollectAllSucceed(os: seq<Result<ParameterHandler, FactoryError>>, hs: seq<ParameterHandler>)
    requires |hs| == |os|
    requires forall i :: 0 <= i < |hs| ==> os[i].Success? && hs[i] == os[i].value
    ensures CollectHandlers(os, 0) == Success(hs)
  {
    var r := CollectHandlers(os, 0);
    assert r.value == hs;
  }

  /** The finished factory: one handler per parameter, in parameter order. */
  datatype BundleFactory = BundleFactory(parameterHandlers: seq<ParameterHandler>) {

    /**
     * `invoke`: after the argument-count check, the handlers are applied in order to one
     * fresh container `newBundle`, handler `p` with argument `p`.
     */
    method Invoke<B, V, E>(args: seq<V>, newBundle: B, apply: (B, ParameterHandler, V) -> Result<B, E>)
      returns (r: Result<B, InvokeError<E>>)
      ensures |args| != |parameterHandlers| ==> r == Failure(ArgumentCountMismatch(|args|, |parameterHandlers|))
      ensures |args| == |parameterHandlers| ==> r == ApplyFrom(apply, newBundle, parameterHandlers, args, 0)
    {
      var handlers := parameterHandlers;
      var argumentCount := |args|;
      if argumentCount != |handlers| {
        return Failure(ArgumentCountMismatch(argumentCount, |handlers|));
      }
      var bundle := newBundle;
      for p := 0 to argumentCount
        invariant ApplyFrom(apply, bundle, handlers, args, p) == ApplyFrom(apply, newBundle, handlers, args, 0)
      {
        var applied := apply(bundle, handlers[p], args[p]);
        if applied.Failure? {
          return Failure(HandlerFailed(p, applied.error));
        }
        bundle := applied.value;
      }
      return Success(bundle);
    }
  }

  /** Why an invocation failed: a wrong argument count, or the error raised by the handler at `index`. */
  datatype InvokeError<+E> = ArgumentCountMismatch(argumentCount: nat, expectedCount: nat) | HandlerFailed(index: nat, error: E)

  /** Applies handlers `p..` to their arguments in order, starting from container `b`. */
  function ApplyFrom<B, V, E>(apply: (B, ParameterHandler, V) -> Result<B, E>, b: B,
                              hs: seq<ParameterHandler>, args: seq<V>, p: nat): Result<B, InvokeError<E>>
    requires |hs| == |args| && p <= |hs|
    decreases |hs| - p
  {
    if p == |hs| then Success(b)
    else
      match apply(b, hs[p], args[p])
      case Failure(e) => Failure(HandlerFailed(p, e))
      case Success(b') => ApplyFrom(apply, b', hs, args, p + 1)
  }

  /** A container that records every application: handler and argument, in order. */
  function Record<V>(log: seq<(ParameterHandler, V)>, h: ParameterHandler, v: V): Result<seq<(ParameterHandler, V)>, string> {
    Success(log + [(h, v)])
  }

  /** Invoking applies each handler exactly once, to its own argument, in increasing order. */
  lemma {:induction false} AppliesEachHandlerOnceInOrder<V>(hs: seq<ParameterHandler>, args: seq<V>,
                                                          log: seq<(ParameterHandler, V)>, p: nat)
    requires |hs| == |args| && p <= |hs|
    ensures var r := ApplyFrom(Record, log, hs, args, p);
      && r.Success?
      && |r.value| == |log| + |hs| - p
      && r.value[..|log|] == log
      && forall i :: p <= i < |hs| ==> r.value[|log| + i - p] == (hs[i], args[i])
    decreases |hs| - p
  {
    if p < |hs| {
      var log' := log + [(hs[p], args[p])];
      AppliesEachHandlerOnceInOrder(hs, args, log', p + 1);
      var r := ApplyFrom(Record, log', hs, args, p + 1);
      assert r.value[..|log|] == r.value[..|log'|][..|log|];
    }
  }

  /** How the binding annotations of a prefix grow by one annotation, and what follows them. */
  lemma BindingPrefixStep(anns: seq<Annotation>, i: nat)
    requires i < |anns|
    ensures BindingAnnotations(anns[..i + 1])
         == BindingAnnotations(anns[..i]) + if IsBindingAnnotation(anns[i]) then [anns[i]] else []
    ensures BindingAnnotations(anns) == BindingAnnotations(anns[..i + 1]) + BindingAnnotations(anns[i + 1..])
  {
    BindingPrefixLast(anns, i);
    BindingPrefixRest(anns, i);
  }

  lemma BindingPrefixLast(anns: seq<Annotation>, i: nat)
    requires i < |anns|
    ensures BindingAnnotations(anns[..i + 1])
         == BindingAnnotations(anns[..i]) + if IsBindingAnnotation(anns[i]) then [anns[i]] else []
  {
    var prefix, last := anns[..i], anns[i];
    assert anns[..i + 1] == prefix + [last];
    BindingAnnotationsAppend(prefix, [last]);
    BindingAnnotationsSingle(last);
  }

  lemma BindingPrefixRest(anns: seq<Annotation>, i: nat)
    requires i < |anns|
    ensures BindingAnnotations(anns) == BindingAnnotations(anns[..i + 1]) + BindingAnnotations(anns[i + 1..])
  {
    var prefix, rest := anns[..i + 1], anns[i + 1..];
    assert anns == prefix + rest;
    BindingAnnotationsAppend(prefix, rest);
  }

  lemma BindingAnnotationsSingle(a: Annotation)
    ensures BindingAnnotations([a]) == if IsBindingAnnotation(a) then [a] else []
  {
  }

  /**
   * A binding annotation at position `i` that fails its type check, after at most one earlier
   * binding annotation that passed, is the error of the whole parameter.
   */
  lemma TypeErrorAt(m: JavaMethod, p: nat, param: Parameter, isAssignableFrom: Assignability, i: nat)
    requires var anns := AnnotationsOf(param.annotations);
      i < |anns| && IsBindingAnnotation(anns[i]) && !isAssignableFrom(BindingClass(anns[i]), RawType(param.parameterType))
    requires var bs := BindingAnnotations(AnnotationsOf(param.annotations)[..i]);
      |bs| <= 1 && (|bs| == 1 ==> isAssignableFrom(BindingClass(bs[0]), RawType(param.parameterType)))
    ensures var anns := AnnotationsOf(param.annotations);
      ExpectedParameter(m, p, param, isAssignableFrom) == Failure(ParameterError(m, p, WrongParameterType(anns[i], RawType(param.parameterType))))
  {
    BindingPrefixStep(AnnotationsOf(param.annotations), i);
  }

  /** A second binding annotation at position `i` that passes its type check, after one that passed, is an error. */
  lemma SecondBindingAt(m: JavaMethod, p: nat, param: Parameter, isAssignableFrom: Assignability, i: nat)
    requires var anns := AnnotationsOf(param.annotations);
      i < |anns| && IsBindingAnnotation(anns[i]) && isAssignableFrom(BindingClass(anns[i]), RawType(param.parameterType))
    requires var bs := BindingAnnotations(AnnotationsOf(param.annotations)[..i]);
      |bs| == 1 && isAssignableFrom(BindingClass(bs[0]), RawType(param.parameterType))
    ensures ExpectedParameter(m, p, param, isAssignableFrom) == Failure(ParameterError(m, p, MultipleAnnotations))
  {
    BindingPrefixStep(AnnotationsOf(param.annotations), i);
  }

  /**
   * `BundleFactory.Builder`: reads one method and fills its handler array, one entry per
   * parameter.
   */
  class Builder {
    const serviceMethod: JavaMethod
    const isAssignableFrom: Assignability
    var parameterHandlers: array<ParameterHandler>

    constructor (serviceMethod: JavaMethod, isAssignableFrom: Assignability)
      ensures this.serviceMethod == serviceMethod && this.isAssignableFrom == isAssignableFrom
      ensures parameterHandlers.Length == 0
    {
      this.serviceMethod := serviceMethod;
      this.isAssignableFrom := isAssignableFrom;
      parameterHandlers := new ParameterHandler[0];
    }

    /**
     * `build`: a fresh handler array as long as the parameter list, entry `p` the handler of
     * parameter `p`; the first failing parameter's error otherwise.
     */
    method Build() returns (r: Result<BundleFactory, FactoryError>)
      modifies this
      ensures fresh(parameterHandlers) && parameterHandlers.Length == |serviceMethod.parameters|
      ensures var expected := CollectHandlers(Outcomes(serviceMethod, isAssignableFrom), 0);
        && (expected.Success? ==> r == Success(BundleFactory(expected.value)) && parameterHandlers[..] == expected.value)
        && (expected.Failure? ==> r == Failure(expected.error))
    {
      var parameterCount := |serviceMethod.parameters|;
      var handlers := new ParameterHandler[parameterCount];
      parameterHandlers := handlers;
      ghost var outcomes := Outcomes(serviceMethod, isAssignableFrom);
      for p := 0 to parameterCount
        modifies handlers
        invariant forall i :: 0 <= i < p ==> outcomes[i].Success? && handlers[i] == outcomes[i].value
      {
        var handler := ParseParameter(p, serviceMethod.parameters[p].parameterType, serviceMethod.parameters[p].annotations);
        if handler.Failure? {
          CollectFirstFailure(outcomes, p);
          return Failure(handler.error);
        }
        handlers[p] := handler.value;
      }
      CollectAllSucceed(outcomes, handlers[..]);
      return Success(BundleFactory(parameterHandlers[..]));
    }

    /**
     * `parseParameter`: each annotation is dispatched in turn; a type error is thrown at once,
     * a second handler is an error, and no handler at all is an error.
     */
    method ParseParameter(p: nat, parameterType: JavaType, annotations: Option<seq<Annotation>>)
      returns (r: Result<ParameterHandler, FactoryError>)
      ensures r == ExpectedParameter(serviceMethod, p, Parameter(parameterType, annotations), isAssignableFrom)
    {
      var result: Option<ParameterHandler> := None;
      var anns := AnnotationsOf(annotations);
      var rawType := RawType(parameterType);
      if annotations.Some? {
        for i := 0 to |anns|
          invariant var bs := BindingAnnotations(anns[..i]);
            && |bs| <= 1
            && (|bs| == 0 ==> result.None?)
            && (|bs| == 1 ==> isAssignableFrom(BindingClass(bs[0]), rawType)
                              && result == Some(IntParameterHandler(bs[0].value, IsRequired(annotations))))
        {
          var annotation := anns[i];
          BindingPrefixStep(anns, i);
          var annotationAction := ParseParameterAnnotation(serviceMethod, p, parameterType, annotation, IsRequired(annotations), isAssignableFrom);
          if annotationAction.Failure? {
            TypeErrorAt(serviceMethod, p, Parameter(parameterType, annotations), isAssignableFrom, i);
            return Failure(annotationAction.error);
          }
          if annotationAction.value.None? {
            continue;
          }
          if result.Some? {
            SecondBindingAt(serviceMethod, p, Parameter(parameterType, annotations), isAssignableFrom, i);
            return Failure(ParameterError(serviceMethod, p, MultipleAnnotations));
          }
          result := annotationAction.value;
        }
        assert anns[..|anns|] == anns;
      }
      if result.None? {
        return Failure(ParameterError(serviceMethod, p, NoAnnotation));
      }
      return Success(result.value);
    }
  }

  /** The factory `parseAnnotations` builds for a method: only methods returning `Bundle` are accepted. */
  function ExpectedFactory(m: JavaMethod, isAssignableFrom: Assignability): (r: Result<BundleFactory, FactoryError>)
    ensures r == Failure(MethodError(m, MustReturnBundle)) <==> m.returnType != ClassType(BundleClass)
    ensures r.Success? ==> |r.value.parameterHandlers| == |m.parameters|
    ensures r.Success? ==> forall i :: 0 <= i < |m.parameters| ==>
      ExpectedParameter(m, i, m.parameters[i], isAssignableFrom).Success? &&
      r.value.parameterHandlers[i] == ExpectedParameter(m, i, m.parameters[i], isAssignableFrom).value
    ensures r.Failure? && m.returnType == ClassType(BundleClass) ==>
      exists i :: FirstFailure(Outcomes(m, isAssignableFrom), 0, i, r.error)
  {
    if m.returnType != ClassType(BundleClass) then Failure(MethodError(m, MustReturnBundle))
    else
      var os := Outcomes(m, isAssignableFrom);
      assert |os| == |m.parameters| && forall i :: 0 <= i < |os| ==> os[i] == ExpectedParameter(m, i, m.parameters[i], isAssignableFrom);
      match CollectHandlers(os, 0)
      case Failure(e) => Failure(e)
      case Success(hs) => Success(BundleFactory(hs))
  }

  /** `parseAnnotations`: the return-type check, then a fresh builder for the method. */
  method ParseAnnotations(m: JavaMethod, isAssignableFrom: Assignability) returns (r: Result<BundleFactory, FactoryError>)
    ensures r == ExpectedFactory(m, isAssignableFrom)
  {
    var returnType := m.returnType;
    if returnType != ClassType(BundleClass) {
      return Failure(MethodError(m, MustReturnBundle));
    }
    var builder := new Builder(m, isAssignableFrom);
    r := builder.Build();
  }

  /** The per-method memo cache of factories (a static map in the Java code). */
  class BundleFactoryCache {
    const isAssignableFrom: Assignability
    var cache: map<JavaMethod, BundleFactory>

    /** Every cached factory is the one `parseAnnotations` builds for its method. */
    ghost predicate Valid()
      reads this
    {
      forall m :: m in cache ==> ExpectedFactory(m, isAssignableFrom) == Success(cache[m])
    }

    constructor (isAssignableFrom: Assignability)
      ensures this.isAssignableFrom == isAssignableFrom && cache == map[] && Valid()
    {
      this.isAssignableFrom := isAssignableFrom;
      cache := map[];
    }

    /**
     * `loadBundleFactory`: a cached factory is returned as is; otherwise the method is parsed
     * and, when that succeeds, the factory is cached.  Either way the result is the factory
     * `parseAnnotations` builds, so caching is invisible to the caller.
     */
    method LoadBundleFactory(m: JavaMethod) returns (r: Result<BundleFactory, FactoryError>)
      requires Valid()
      modifies this
      ensures Valid()
      ensures r == ExpectedFactory(m, isAssignableFrom)
      ensures m in old(cache) ==> r == Success(old(cache)[m]) && cache == old(cache)
      ensures m !in old(cache) ==> cache == if r.Success? then old(cache)[m := r.value] else old(cache)
      ensures r.Success? ==> m in cache && cache[m] == r.value
    {
      if m in cache {
        return Success(cache[m]);
      }
      r := ParseAnnotations(m, isAssignableFrom);
      if r.Success? {
        cache := cache[m := r.value];
      }
    }
  }
}
