/**
 * The per-method loop of debugLifeCycleMethods and the sequencing of
 * applyTransformations, with the specification functions they are proved
 * against and the properties of those functions.
 */
module Processor {
  import opened Wrappers
  import opened Javassist
  import opened AccessFlag
  import opened LifeCycleStatement
  import opened MethodCollector

  /** The naming convention of life-cycle callbacks. */
  const LifeCyclePrefix: string := "on"

  /** String.startsWith: a case-sensitive prefix test. */
  predicate StartsWith(s: string, prefix: string)
  {
    |prefix| <= |s| && s[..|prefix|] == prefix
  }

  /** The name test is a case-sensitive prefix match, so onward qualifies and OnCreate does not. */
  lemma OnPrefixIsCaseSensitive()
    ensures Instrumented(PUBLIC, "onward") && !Instrumented(PUBLIC, "OnCreate")
  {
    assert "OnCreate"[0] == 'O';
  }

  /** A method is handed to the weaver iff it can be overridden and is named like a callback. */
  predicate Instrumented(flags: bv16, name: string)
    ensures Instrumented(flags, name) <==> CanOverride(flags) && |name| >= 2 && name[0] == 'o' && name[1] == 'n'
  {
    CanOverride(flags) && StartsWith(name, LifeCyclePrefix)
  }

  /** What happened to one method of the array. */
  datatype Outcome =
    | Skipped(methodName: string)
    | Injected(methodName: string, body: string)
    | WeaveFailed(methodName: string, body: string, cause: Exception)

  /**
   * The loop after some iterations: the overrides of the class, one outcome
   * per method visited, and the exception that left the loop, if any.
   */
  datatype LoopState = LoopState(overrides: seq<Override>, outcomes: seq<Outcome>, abort: Option<Exception>)

  /**
   * One iteration on method `m`. Reading the access flags lies outside the
   * try, so its failure is an Err; a failing weaver is caught and recorded.
   */
  function Visit(afterBurner: AfterBurner, target: CtClass, overrides: seq<Override>, m: Method)
    : (v: (seq<Override>, Result<Outcome, Exception>))
    ensures v.1.Err? <==> target.methodInfo(m).Err?
    ensures v.1.Err? ==> v == (overrides, Err(target.methodInfo(m).error))
    ensures v.1.Ok? ==> v.1.value.methodName == m.name &&
                        (v.1.value.Skipped? <==> !Instrumented(target.methodInfo(m).value, m.name))
    ensures v.1.Ok? && !v.1.value.Skipped? ==> v.1.value.body == LogStatement(target.name, m.name)
    ensures v.0 == overrides + (if v.1.Ok? && v.1.value.Injected?
                                then [Override(m.name, LogStatement(target.name, m.name))] else [])
  {
    match target.methodInfo(m)
    case Err(e) => (overrides, Err(e))
    case Ok(flags) =>
      if Instrumented(flags, m.name) then
        var body := LogStatement(target.name, m.name);
        match afterBurner(target, overrides, m.name, body)
        case None => (overrides + [Override(m.name, body)], Ok(Injected(m.name, body)))
        case Some(e) => (overrides, Ok(WeaveFailed(m.name, body, e)))
      else (overrides, Ok(Skipped(m.name)))
  }

  /** The loop of debugLifeCycleMethods over `methods`, starting from `overrides`. */
  function Run(afterBurner: AfterBurner, target: CtClass, overrides: seq<Override>, methods: seq<Method>)
    : (r: LoopState)
    ensures r.abort.None? ==> |r.outcomes| == |methods|
    ensures r.abort.Some? ==>
              |r.outcomes| < |methods| && target.methodInfo(methods[|r.outcomes|]) == Err(r.abort.value)
    ensures r.abort.None? <==> forall j :: 0 <= j < |methods| ==> target.methodInfo(methods[j]).Ok?
    ensures forall j :: 0 <= j < |r.outcomes| ==> target.methodInfo(methods[j]).Ok?
    decreases |methods|
  {
    if methods == [] then LoopState(overrides, [], None)
    else
      var prev := Run(afterBurner, target, overrides, methods[..|methods| - 1]);
      if prev.abort.Some? then prev
      else
        var (after, result) := Visit(afterBurner, target, prev.overrides, methods[|methods| - 1]);
        match result
        case Err(e) => LoopState(after, prev.outcomes, Some(e))
        case Ok(o) => LoopState(after, prev.outcomes + [o], None)
  }

  /**
   * The loop over a prefix of the array is the beginning of the loop over the
   * whole array; once it has thrown, the rest of the array is never visited.
   */
  lemma {:induction false} RunPrefix(afterBurner: AfterBurner, target: CtClass, overrides: seq<Override>,
                                     methods: seq<Method>, k: nat)
    requires k <= |methods|
    ensures var part := Run(afterBurner, target, overrides, methods[..k]);
            var whole := Run(afterBurner, target, overrides, methods);
            (part.abort.Some? ==> whole == part) && (part.abort.None? ==> part.outcomes <= whole.outcomes)
    decreases |methods| - k
  {
    if k == |methods| {
      assert methods[..k] == methods;
    } else {
      var n := |methods|;
      assert methods[..n - 1][..k] == methods[..k];
      RunPrefix(afterBurner, target, overrides, methods[..n - 1], k);
      var prev := Run(afterBurner, target, overrides, methods[..n - 1]);
      var whole := Run(afterBurner, target, overrides, methods);
      assert prev.abort.Some? ==> whole == prev;
      assert prev.abort.None? ==> prev.outcomes <= whole.outcomes;
    }
  }

  /**
   * The i-th outcome belongs to the i-th method: it is a skip iff the method
   * is not instrumented, and otherwise records the exact statement handed to
   * the weaver and whether the weaver, called on the state the first i
   * methods left, succeeded.
   */
  lemma OutcomeAt(afterBurner: AfterBurner, target: CtClass, overrides: seq<Override>,
                  methods: seq<Method>, i: nat)
    requires i < |Run(afterBurner, target, overrides, methods).outcomes|
    ensures target.methodInfo(methods[i]).Ok?
    ensures var before := Run(afterBurner, target, overrides, methods[..i]);
            var o := Run(afterBurner, target, overrides, methods).outcomes[i];
            var name := methods[i].name;
            var body := LogStatement(target.name, name);
            var instrumented := Instrumented(target.methodInfo(methods[i]).value, name);
            && before.abort.None?
            && before.outcomes == Run(afterBurner, target, overrides, methods).outcomes[..i]
            && o.methodName == name
            && (o.Skipped? <==> !instrumented)
            && (!o.Skipped? ==> o.body == body)
            && (o.Injected? <==> instrumented && afterBurner(target, before.overrides, name, body).None?)
            && (o.WeaveFailed? ==> afterBurner(target, before.overrides, name, body) == Some(o.cause))
  {
    var whole := Run(afterBurner, target, overrides, methods);
    var before := Run(afterBurner, target, overrides, methods[..i]);
    var next := Run(afterBurner, target, overrides, methods[..i + 1]);
    RunPrefix(afterBurner, target, overrides, methods, i);
    RunPrefix(afterBurner, target, overrides, methods, i + 1);
    assert methods[..i + 1][..i] == methods[..i];
    assert methods[..i + 1][i] == methods[i];
    assert before.abort.None?;
    assert next.abort.None?;
  }

  /**
   * The weaver's answers never decide whether or where the loop stops, nor
   * which methods are skipped: a weave failure does not stop the loop.
   */
  lemma {:induction false} AbortIndependentOfWeaver(afterBurner1: AfterBurner, afterBurner2: AfterBurner,
                                                    target: CtClass, overrides1: seq<Override>,
                                                    overrides2: seq<Override>, methods: seq<Method>)
    ensures var r1 := Run(afterBurner1, target, overrides1, methods);
            var r2 := Run(afterBurner2, target, overrides2, methods);
            && r1.abort == r2.abort
            && |r1.outcomes| == |r2.outcomes|
            && forall j :: 0 <= j < |r1.outcomes| ==>
                 r1.outcomes[j].methodName == r2.outcomes[j].methodName &&
                 (r1.outcomes[j].Skipped? <==> r2.outcomes[j].Skipped?)
    decreases |methods|
  {
    if methods != [] {
      AbortIndependentOfWeaver(afterBurner1, afterBurner2, target, overrides1, overrides2,
                               methods[..|methods| - 1]);
    }
  }

  /** The overrides recorded by the Injected outcomes, in order. */
  function Injections(outcomes: seq<Outcome>): seq<Override>
  {
    if outcomes == [] then []
    else
      var last := outcomes[|outcomes| - 1];
      Injections(outcomes[..|outcomes| - 1]) +
      (if last.Injected? then [Override(last.methodName, last.body)] else [])
  }

  /** The class gains exactly one override per successful weave, in the order of the array. */
  lemma {:induction false} RunRecordsInjections(afterBurner: AfterBurner, target: CtClass,
                                                overrides: seq<Override>, methods: seq<Method>)
    ensures var r := Run(afterBurner, target, overrides, methods);
            r.overrides == overrides + Injections(r.outcomes)
    decreases |methods|
  {
    if methods != [] {
      var prev := Run(afterBurner, target, overrides, methods[..|methods| - 1]);
      RunRecordsInjections(afterBurner, target, overrides, methods[..|methods| - 1]);
      if prev.abort.None? {
        var r := Run(afterBurner, target, overrides, methods);
        if |r.outcomes| > |prev.outcomes| {
          assert r.outcomes[..|r.outcomes| - 1] == prev.outcomes;
        }
      }
    }
  }

  /** Every override the loop adds is a LogStatement on a method whose name starts with "on". */
  lemma {:induction false} WovenOverridesAreLogStatements(afterBurner: AfterBurner, target: CtClass,
                                                          overrides: seq<Override>, methods: seq<Method>)
    ensures var r := Run(afterBurner, target, overrides, methods);
            && overrides <= r.overrides
            && forall k :: |overrides| <= k < |r.overrides| ==>
                 StartsWith(r.overrides[k].methodName, LifeCyclePrefix) &&
                 r.overrides[k].body == LogStatement(target.name, r.overrides[k].methodName)
    decreases |methods|
  {
    if methods != [] {
      WovenOverridesAreLogStatements(afterBurner, target, overrides, methods[..|methods| - 1]);
    }
  }

  /**
   * applyTransformations on the class, with the method array in the order
   * `order`: the class's new overrides and the result (a wrapped exception,
   * or one outcome per method).
   */
  function Transform(afterBurner: AfterBurner, target: CtClass, overrides: seq<Override>, order: seq<Method>)
    : (t: (seq<Override>, Result<seq<Outcome>, Exception>))
    ensures t.1.Err? ==> t.1.error.JavassistBuildException?
    ensures CollectedMethods(target.pool, target.name).Err? ==>
              t == (overrides, Err(JavassistBuildException(CollectedMethods(target.pool, target.name).error)))
    ensures t.1.Ok? ==> |t.1.value| == |order|
  {
    match CollectedMethods(target.pool, target.name)
    case Err(e) => (overrides, Err(JavassistBuildException(e)))
    case Ok(_) =>
      var run := Run(afterBurner, target, overrides, order);
      (run.overrides,
       match run.abort
       case None => Ok(run.outcomes)
       case Some(e) => Err(JavassistBuildException(e)))
  }

  /**
   * applyTransformations throws iff collecting the methods fails or the read
   * of some method's access flags (outside the per-method try) fails; what
   * it throws is a JavassistBuildException; a failed collection leaves the
   * class untouched; otherwise every method gets one outcome.
   */
  lemma TransformFailsIff(afterBurner: AfterBurner, target: CtClass, overrides: seq<Override>, order: seq<Method>)
    requires CollectedMethods(target.pool, target.name).Ok? ==>
               Enumerates(order, CollectedMethods(target.pool, target.name).value)
    ensures var collected := CollectedMethods(target.pool, target.name);
            var t := Transform(afterBurner, target, overrides, order);
            && (t.1.Err? <==> collected.Err? || exists m :: m in collected.value && target.methodInfo(m).Err?)
            && (t.1.Err? ==> t.1.error.JavassistBuildException?)
            && (collected.Err? ==> t.0 == overrides && t.1.error.cause == collected.error)
            && (t.1.Ok? ==> |t.1.value| == |order| == |collected.value|)
  {
    var collected := CollectedMethods(target.pool, target.name);
    if collected.Ok? {
      var r := Run(afterBurner, target, overrides, order);
      if exists m :: m in collected.value && target.methodInfo(m).Err? {
        var m :| m in collected.value && target.methodInfo(m).Err?;
        var j :| 0 <= j < |order| && order[j] == m;
      }
    }
  }

  /** Whether applyTransformations throws does not depend on the weaver. */
  lemma TransformFailureIndependentOfWeaver(afterBurner1: AfterBurner, afterBurner2: AfterBurner,
                                            target: CtClass, overrides: seq<Override>, order: seq<Method>)
    ensures Transform(afterBurner1, target, overrides, order).1.Err? ==
            Transform(afterBurner2, target, overrides, order).1.Err?
  {
    AbortIndependentOfWeaver(afterBurner1, afterBurner2, target, overrides, overrides, order);
  }

  /** The loop over one more method is the loop so far followed by one iteration. */
  lemma RunSnoc(afterBurner: AfterBurner, target: CtClass, overrides: seq<Override>,
                methods: seq<Method>, m: Method)
    requires Run(afterBurner, target, overrides, methods).abort.None?
    ensures var prev := Run(afterBurner, target, overrides, methods);
            var v := Visit(afterBurner, target, prev.overrides, m);
            Run(afterBurner, target, overrides, methods + [m]) ==
              match v.1
              case Err(e) => LoopState(v.0, prev.outcomes, Some(e))
              case Ok(o) => LoopState(v.0, prev.outcomes + [o], None)
  {
    assert (methods + [m])[..|methods|] == methods;
  }

  /** One iteration when the flag read succeeds and the weaver never fails. */
  lemma VisitWithWorkingWeaver(afterBurner: AfterBurner, target: CtClass, overrides: seq<Override>,
                               m: Method, flags: bv16)
    requires target.methodInfo(m) == Ok(flags)
    requires forall c, ov, n, b :: afterBurner(c, ov, n, b).None?
    ensures Visit(afterBurner, target, overrides, m) ==
            if Instrumented(flags, m.name)
            then (overrides + [Override(m.name, LogStatement(target.name, m.name))],
                  Ok(Injected(m.name, LogStatement(target.name, m.name))))
            else (overrides, Ok(Skipped(m.name)))
  {
  }

  /** The first two methods of the Screen1 scenario, public onCreate and protected onPause, are woven. */
  lemma Screen1Woven(afterBurner: AfterBurner, target: CtClass)
    requires target.name == "Screen1"
    requires target.methodInfo(Method("onCreate", "()V")) == Ok(PUBLIC)
    requires target.methodInfo(Method("onPause", "()V")) == Ok(PROTECTED)
    requires forall c, ov, n, b :: afterBurner(c, ov, n, b).None?
    ensures var bodyCreate, bodyPause := LogStatement("Screen1", "onCreate"), LogStatement("Screen1", "onPause");
            Run(afterBurner, target, [], [Method("onCreate", "()V"), Method("onPause", "()V")]) ==
            LoopState([Override("onCreate", bodyCreate), Override("onPause", bodyPause)],
                      [Injected("onCreate", bodyCreate), Injected("onPause", bodyPause)], None)
  {
    var m0, m1 := Method("onCreate", "()V"), Method("onPause", "()V");
    assert StartsWith("onCreate", LifeCyclePrefix) && StartsWith("onPause", LifeCyclePrefix);
    assert CanOverride(PUBLIC) && CanOverride(PROTECTED);
    var bodyCreate, bodyPause := LogStatement("Screen1", "onCreate"), LogStatement("Screen1", "onPause");
    var created := [Override("onCreate", bodyCreate)];
    assert Run(afterBurner, target, [], []) == LoopState([], [], None);
    VisitWithWorkingWeaver(afterBurner, target, [], m0, PUBLIC);
    RunSnoc(afterBurner, target, [], [], m0);
    assert [] + [m0] == [m0];
    assert Run(afterBurner, target, [], [m0]) == LoopState(created, [Injected("onCreate", bodyCreate)], None);
    VisitWithWorkingWeaver(afterBurner, target, created, m1, PROTECTED);
    RunSnoc(afterBurner, target, [], [m0], m1);
    assert [m0] + [m1] == [m0, m1];
  }

  /**
   * Class Screen1 declares public onCreate, protected onPause, private onStop,
   * public final onDestroy and public handleClick: with a weaver that always
   * succeeds, exactly onCreate and onPause are woven.
   */
  lemma Screen1Scenario(afterBurner: AfterBurner, target: CtClass)
    requires target.name == "Screen1"
    requires target.methodInfo(Method("onCreate", "()V")) == Ok(PUBLIC)
    requires target.methodInfo(Method("onPause", "()V")) == Ok(PROTECTED)
    requires target.methodInfo(Method("onStop", "()V")) == Ok(PRIVATE)
    requires target.methodInfo(Method("onDestroy", "()V")) == Ok(PUBLIC | FINAL)
    requires target.methodInfo(Method("handleClick", "()V")) == Ok(PUBLIC)
    requires forall c, ov, n, b :: afterBurner(c, ov, n, b).None?
    ensures var methods := [Method("onCreate", "()V"), Method("onPause", "()V"), Method("onStop", "()V"),
                            Method("onDestroy", "()V"), Method("handleClick", "()V")];
            var r := Run(afterBurner, target, [], methods);
            && r.abort.None?
            && r.outcomes == [Injected("onCreate", LogStatement("Screen1", "onCreate")),
                              Injected("onPause", LogStatement("Screen1", "onPause")),
                              Skipped("onStop"), Skipped("onDestroy"), Skipped("handleClick")]
            && r.overrides == [Override("onCreate", LogStatement("Screen1", "onCreate")),
                               Override("onPause", LogStatement("Screen1", "onPause"))]
  {
    var m0, m1, m2, m3, m4 := Method("onCreate", "()V"), Method("onPause", "()V"), Method("onStop", "()V"),
                              Method("onDestroy", "()V"), Method("handleClick", "()V");
    Screen1Woven(afterBurner, target);
    var bodyCreate, bodyPause := LogStatement("Screen1", "onCreate"), LogStatement("Screen1", "onPause");
    var paused := [Override("onCreate", bodyCreate), Override("onPause", bodyPause)];
    var injected := [Injected("onCreate", bodyCreate), Injected("onPause", bodyPause)];
    assert !StartsWith("handleClick", LifeCyclePrefix) by { assert "handleClick"[0] == 'h'; }
    assert !CanOverride(PRIVATE) && !CanOverride(PUBLIC | FINAL);
    VisitWithWorkingWeaver(afterBurner, target, paused, m2, PRIVATE);
    RunSnoc(afterBurner, target, [], [m0, m1], m2);
    assert [m0, m1] + [m2] == [m0, m1, m2];
    assert Run(afterBurner, target, [], [m0, m1, m2]) == LoopState(paused, injected + [Skipped("onStop")], None);
    VisitWithWorkingWeaver(afterBurner, target, paused, m3, PUBLIC | FINAL);
    RunSnoc(afterBurner, target, [], [m0, m1, m2], m3);
    assert [m0, m1, m2] + [m3] == [m0, m1, m2, m3];
    assert Run(afterBurner, target, [], [m0, m1, m2, m3]) ==
           LoopState(paused, injected + [Skipped("onStop"), Skipped("onDestroy")], None);
    VisitWithWorkingWeaver(afterBurner, target, paused, m4, PUBLIC);
    RunSnoc(afterBurner, target, [], [m0, m1, m2, m3], m4);
    assert [m0, m1, m2, m3] + [m4] == [m0, m1, m2, m3, m4];
    assert Run(afterBurner, target, [], [m0, m1, m2, m3, m4]) ==
           LoopState(paused, injected + [Skipped("onStop"), Skipped("onDestroy"), Skipped("handleClick")], None);
  }

  /**
   * The processor. The weaver and the debug flag are set once; debug only
   * chooses how much is logged and is read by none of the operations below.
   */
  class LogLifeCycleProcessor {
    const afterBurner: AfterBurner
    const debug: bool

    constructor (debug: bool, afterBurner: AfterBurner)
      ensures this.debug == debug && this.afterBurner == afterBurner
    {
      this.debug := debug;
      this.afterBurner := afterBurner;
    }

    /** debugLifeCycleMethods: visits the methods in order, weaving the eligible ones. */
    method DebugLifeCycleMethods(classToTransform: CtClass, methods: seq<Method>)
      returns (outcomes: seq<Outcome>, failure: Option<Exception>)
      modifies classToTransform
      ensures Run(afterBurner, classToTransform, old(classToTransform.overrides), methods) ==
              LoopState(classToTransform.overrides, outcomes, failure)
    {
      ghost var start := classToTransform.overrides;
      outcomes, failure := [], None;
      for i := 0 to |methods|
        invariant Run(afterBurner, classToTransform, start, methods[..i]) ==
                  LoopState(classToTransform.overrides, outcomes, None)
      {
        assert methods[..i + 1][..i] == methods[..i];
        var lifeCycleHook := methods[i];
        var methodName := lifeCycleHook.name;
        var className := classToTransform.name;
        var info := classToTransform.methodInfo(lifeCycleHook);
        if info.Err? {
          failure := Some(info.error);
          RunPrefix(afterBurner, classToTransform, start, methods, i + 1);
          return;
        }
        var accessFlags := info.value;
        if CanOverride(accessFlags) && StartsWith(methodName, LifeCyclePrefix) {
          var body := LogStatement(className, methodName);
          var thrown := afterBurner(classToTransform, classToTransform.overrides, methodName, body);
          if thrown.None? {
            classToTransform.overrides := classToTransform.overrides + [Override(methodName, body)];
            outcomes := outcomes + [Injected(methodName, body)];
          } else {
            outcomes := outcomes + [WeaveFailed(methodName, body, thrown.value)];
          }
        } else {
          outcomes := outcomes + [Skipped(methodName)];
        }
      }
      assert methods[..|methods|] == methods;
    }

    /**
     * applyTransformations: collects the methods, turns the set into an
     * array (`visited`, in the set's unspecified order) and runs the loop;
     * any exception that leaves them is rethrown wrapped.
     */
    method ApplyTransformations(classToTransform: CtClass)
      returns (r: Result<seq<Outcome>, Exception>, ghost visited: seq<Method>)
      modifies classToTransform
      ensures CollectedMethods(classToTransform.pool, classToTransform.name).Ok? ==>
                Enumerates(visited, CollectedMethods(classToTransform.pool, classToTransform.name).value)
      ensures Transform(afterBurner, classToTransform, old(classToTransform.overrides), visited) ==
              (classToTransform.overrides, r)
    {
      var classToTransformName := classToTransform.name;
      var methodSet := GetAllLifeCycleMethods(classToTransform.pool, classToTransformName);
      if methodSet.Err? {
        return Err(JavassistBuildException(methodSet.error)), [];
      }
      var methods := ToArray(methodSet.value);
      visited := methods;
      var outcomes, failure := DebugLifeCycleMethods(classToTransform, methods);
      if failure.Some? {
        r := Err(JavassistBuildException(failure.value));
      } else {
        r := Ok(outcomes);
      }
    }
  }
}
