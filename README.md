# LogLifeCycle instrumentation decisions, in Dafny

This project models `LogLifeCycleProcessor`, the byte-code pass of the LogLifeCycle
plugin. The pass adds a log statement to every overridable life-cycle callback of an
Android component class that carries the `@LogLifeCycle` annotation. The model covers
five parts:

- **Eligibility gate** (`Eligibility`): `shouldTransform` asks the eight category
  queries of `JavassistUtils` in a fixed order. The queries short-circuit as `||` does.
  Only then does it look at the annotation. Any exception comes back wrapped in a
  `JavassistBuildException`.
- **Method collection** (`MethodCollector`): `getAllLifeCycleMethods` merges the
  inherited array and the declared array into one set. `toArray` then lists that set
  in an unspecified order.
- **Overridability filter** (`AccessFlag`): a bit test on the JVM method access flags
  of section 4.6 (Table 4.6-A) of the Java Virtual Machine Specification. PUBLIC is
  0x0001, PRIVATE 0x0002, PROTECTED 0x0004 and FINAL 0x0010. The flags are a `bv16`.
  Package visibility means none of PUBLIC, PROTECTED or PRIVATE is set.
- **Statement generation** (`LifeCycleStatement`): the exact Java fragment
  `android.util.Log.d("LogLifeCycle", "<class> [" + System.identityHashCode(this) + "] ⟳ <method>");`,
  where ⟳ is U+27F3.
- **Orchestration** (`Processor`): `debugLifeCycleMethods` visits each method in array
  order. A method is handed to the weaver iff it can be overridden and its name starts
  with `"on"`. A weaver failure is caught and the loop goes on. `applyTransformations`
  wraps every other failure.

The collaborators are uninterpreted and may fail (`Javassist`):

- the class pool (`ClassPool.get`, then `getMethods` and `getDeclaredMethods`);
- the annotation lookup, a `const` value of type `Result<bool, Exception>` on `CtClass`;
- the category queries, a `const` function field of `CtClass`;
- the access-flag read `getMethodInfo().getAccessFlags()`, also a `CtClass` field (`methodInfo`);
- the AfterBurner weaver, a function from the class, its current overrides, the method
  name and the body to an optional exception.

A weave that succeeds is recorded by appending `Override(methodName, body)` to the
class's mutable `overrides` field.

Behaviour of the code worth knowing:

- `shouldTransform` asks the category queries before the annotation (lines 44-45). So
  a throwing query is rethrown even for an unannotated class.
- Every skipped method gets the same single outcome, `Skipped`. The code logs one
  message for a final method, a private method and a badly named one alike (lines
  119-120). There is no separate skip reason per cause.
- The access-flag read (line 98) lies outside the per-method `try`. If it throws, the
  whole class fails with a wrapped exception. A failed method collection leaves the class
  untouched; a failed flag read does not: the methods woven before it keep their overrides.
- `applyTransformations` returns nothing in the code. The model returns the
  per-method outcomes on success, so the properties of the loop can be stated.

## Model

| member | source | states |
|---|---|---|
| AccessFlag.CanOverride | loglifecycle-plugin/src/main/java/com/github/stephanenicolas/loglifecycle/LogLifeCycleProcessor.java:98-102 | overridable iff FINAL is clear and the method is not private-only: PRIVATE clear, or PUBLIC or PROTECTED set as well |
| AccessFlag.VisibilityOf | loglifecycle-plugin/src/main/java/com/github/stephanenicolas/loglifecycle/LogLifeCycleProcessor.java:100-102 | decodes the three visibility bits: exactly one set gives that visibility, none set gives package |
| AccessFlag.CanOverrideByVisibility | loglifecycle-plugin/src/main/java/com/github/stephanenicolas/loglifecycle/LogLifeCycleProcessor.java:98-102 | on well-formed flags, overridable iff not final and not private |
| Eligibility.ProbeCategories | loglifecycle-plugin/src/main/java/com/github/stephanenicolas/loglifecycle/LogLifeCycleProcessor.java:52-60 | asks a prefix of the query order; every query but the last one asked answered false; the result is false iff all answered false, otherwise it is the last one's answer (true or its exception) |
| Eligibility.IsSupported | loglifecycle-plugin/src/main/java/com/github/stephanenicolas/loglifecycle/LogLifeCycleProcessor.java:52-61 | false iff all eight category queries answer false; otherwise it is the answer, true or an exception, of one of the queries (which one: ProbeCategories and DecisiveQuery) |
| Eligibility.CategoryOrderComplete | loglifecycle-plugin/src/main/java/com/github/stephanenicolas/loglifecycle/LogLifeCycleProcessor.java:53-60 | every one of the eight categories is in the order isSupported asks |
| Eligibility.DecisiveQuery | loglifecycle-plugin/src/main/java/com/github/stephanenicolas/loglifecycle/LogLifeCycleProcessor.java:53-60 | the first query that does not answer false decides isSupported, and it is the last query asked |
| Eligibility.ShouldTransform | loglifecycle-plugin/src/main/java/com/github/stephanenicolas/loglifecycle/LogLifeCycleProcessor.java:42-49 | every exception it throws is a JavassistBuildException |
| Eligibility.ShouldTransformTrueIff | loglifecycle-plugin/src/main/java/com/github/stephanenicolas/loglifecycle/LogLifeCycleProcessor.java:42-45 | true iff the class is annotated and some query holds, with every earlier query in the order answering false |
| Eligibility.ShouldTransformWhenResolved | loglifecycle-plugin/src/main/java/com/github/stephanenicolas/loglifecycle/LogLifeCycleProcessor.java:42-60 | when no lookup throws, the answer is exactly "annotated and of at least one category" |
| Eligibility.AnnotationFailureIsWrapped | loglifecycle-plugin/src/main/java/com/github/stephanenicolas/loglifecycle/LogLifeCycleProcessor.java:44-48 | when isSupported answers and the annotation lookup throws, that exception is rethrown as JavassistBuildException of it |
| Eligibility.QueryFailureIsWrapped | loglifecycle-plugin/src/main/java/com/github/stephanenicolas/loglifecycle/LogLifeCycleProcessor.java:44-48 | a query that throws after only false answers is rethrown as JavassistBuildException of that cause, whether or not the class is annotated |
| Eligibility.UnannotatedIsRejected | loglifecycle-plugin/src/main/java/com/github/stephanenicolas/loglifecycle/LogLifeCycleProcessor.java:45 | an unannotated class is never transformed, and is answered false when the queries do not throw |
| Eligibility.LaterQueriesIrrelevant | loglifecycle-plugin/src/main/java/com/github/stephanenicolas/loglifecycle/LogLifeCycleProcessor.java:53-60 | the queries after the deciding one are never asked: changing their answers changes neither the result nor the queries asked |
| MethodCollector.CollectedMethods | loglifecycle-plugin/src/main/java/com/github/stephanenicolas/loglifecycle/LogLifeCycleProcessor.java:78-89 | fails, with the same exception, iff a lookup fails; otherwise holds exactly the methods of the inherited array and of the declared array |
| MethodCollector.MethodArrays | loglifecycle-plugin/src/main/java/com/github/stephanenicolas/loglifecycle/LogLifeCycleProcessor.java:81-82 | succeeds iff the class lookup and both array reads succeed, giving the inherited and the declared array; otherwise it is the exception of the first lookup that throws |
| MethodCollector.CollectionIgnoresOrder | loglifecycle-plugin/src/main/java/com/github/stephanenicolas/loglifecycle/LogLifeCycleProcessor.java:80-88 | two lookups whose two arrays hold the same methods, in any order and with any repetition, collect the same set |
| MethodCollector.GetAllLifeCycleMethods | loglifecycle-plugin/src/main/java/com/github/stephanenicolas/loglifecycle/LogLifeCycleProcessor.java:78-89 | the two filling loops produce exactly the collected set, or the lookup's exception |
| MethodCollector.ToArray | loglifecycle-plugin/src/main/java/com/github/stephanenicolas/loglifecycle/LogLifeCycleProcessor.java:70 | the array lists every method of the set exactly once |
| LifeCycleStatement.LogStatement | loglifecycle-plugin/src/main/java/com/github/stephanenicolas/loglifecycle/LogLifeCycleProcessor.java:108-112 | the statement starts with the tag prefix, then holds the class name, the identity-hash-and-glyph middle and the method name at their positions, and ends with `");`; its length is the sum of the parts (read back by ParseLogStatementInverts and ParseLogStatementSound) |
| LifeCycleStatement.ParseLogStatementInverts | loglifecycle-plugin/src/main/java/com/github/stephanenicolas/loglifecycle/LogLifeCycleProcessor.java:108-112 | for class names without spaces, both names can be read back from the statement |
| LifeCycleStatement.ParseLogStatementSound | loglifecycle-plugin/src/main/java/com/github/stephanenicolas/loglifecycle/LogLifeCycleProcessor.java:108-112 | every string read back as a pair of names is the statement for those names |
| LifeCycleStatement.LogStatementInjective | loglifecycle-plugin/src/main/java/com/github/stephanenicolas/loglifecycle/LogLifeCycleProcessor.java:108-112 | for class names without spaces, different class or method names give different statements |
| Processor.Instrumented | loglifecycle-plugin/src/main/java/com/github/stephanenicolas/loglifecycle/LogLifeCycleProcessor.java:104 | handed to the weaver iff canOverride holds and the name starts with the two characters `o`, `n` |
| Processor.Visit | loglifecycle-plugin/src/main/java/com/github/stephanenicolas/loglifecycle/LogLifeCycleProcessor.java:95-121 | throws iff the flag read throws, leaving the overrides alone; otherwise the outcome names the method, is a skip iff the method is not instrumented, carries the log statement when it is not a skip, and the overrides grow by that statement only on a successful weave (per position in the loop: OutcomeAt) |
| Processor.Run | loglifecycle-plugin/src/main/java/com/github/stephanenicolas/loglifecycle/LogLifeCycleProcessor.java:94-122 | the loop stops early iff some method's flag read throws, at the first such method; otherwise every method gets an outcome |
| Processor.RunPrefix | loglifecycle-plugin/src/main/java/com/github/stephanenicolas/loglifecycle/LogLifeCycleProcessor.java:94 | methods are visited in array order: the loop over a prefix is the start of the loop over the whole array, and nothing after a throw is visited |
| Processor.OutcomeAt | loglifecycle-plugin/src/main/java/com/github/stephanenicolas/loglifecycle/LogLifeCycleProcessor.java:94-121 | the i-th outcome is the i-th method's: skipped iff not overridable or not "on"-prefixed; otherwise it carries the exact statement and is Injected iff the weaver succeeds on the state the earlier methods left |
| Processor.AbortIndependentOfWeaver | loglifecycle-plugin/src/main/java/com/github/stephanenicolas/loglifecycle/LogLifeCycleProcessor.java:106-117 | weaver failures never stop the loop: where it stops, how many methods it visits and which it skips do not depend on the weaver |
| Processor.RunRecordsInjections | loglifecycle-plugin/src/main/java/com/github/stephanenicolas/loglifecycle/LogLifeCycleProcessor.java:113 | the class gains exactly the overrides of the successful weaves, in order |
| Processor.WovenOverridesAreLogStatements | loglifecycle-plugin/src/main/java/com/github/stephanenicolas/loglifecycle/LogLifeCycleProcessor.java:104-113 | existing overrides are kept, and every added one is the log statement for an "on"-named method of this class |
| Processor.Transform | loglifecycle-plugin/src/main/java/com/github/stephanenicolas/loglifecycle/LogLifeCycleProcessor.java:64-76 | every exception is a JavassistBuildException; a failed collection throws the wrapped collection exception and leaves the overrides alone; on success there is one outcome per method visited (both directions of failure: TransformFailsIff) |
| Processor.TransformFailsIff | loglifecycle-plugin/src/main/java/com/github/stephanenicolas/loglifecycle/LogLifeCycleProcessor.java:64-76 | throws iff collection fails or some method's flag read fails; what it throws is a JavassistBuildException; a failed collection leaves the class untouched; on success there is one outcome per collected method |
| Processor.TransformFailureIndependentOfWeaver | loglifecycle-plugin/src/main/java/com/github/stephanenicolas/loglifecycle/LogLifeCycleProcessor.java:64-76 | per-method weave failures never make applyTransformations throw |
| Processor.OnPrefixIsCaseSensitive | loglifecycle-plugin/src/main/java/com/github/stephanenicolas/loglifecycle/LogLifeCycleProcessor.java:104 | the name test is a plain case-sensitive prefix: a public onward is instrumented, a public OnCreate is not |
| Processor.Screen1Woven | loglifecycle-plugin/src/main/java/com/github/stephanenicolas/loglifecycle/LogLifeCycleProcessor.java:104-113 | with a weaver that always succeeds, public onCreate then protected onPause of Screen1 each gain the log statement, in that order |
| Processor.Screen1Scenario | loglifecycle-plugin/src/main/java/com/github/stephanenicolas/loglifecycle/LogLifeCycleProcessor.java:94-121 | public onCreate and protected onPause are woven; private onStop, final onDestroy and handleClick are skipped |
| Processor.LogLifeCycleProcessor.constructor | loglifecycle-plugin/src/main/java/com/github/stephanenicolas/loglifecycle/LogLifeCycleProcessor.java:34-39 | the debug flag and the weaver are set once |
| Processor.LogLifeCycleProcessor.DebugLifeCycleMethods | loglifecycle-plugin/src/main/java/com/github/stephanenicolas/loglifecycle/LogLifeCycleProcessor.java:92-123 | the loop's outcomes, its exception and the class's new overrides are those of Run on the old overrides |
| Processor.LogLifeCycleProcessor.ApplyTransformations | loglifecycle-plugin/src/main/java/com/github/stephanenicolas/loglifecycle/LogLifeCycleProcessor.java:64-76 | visits an enumeration of the collected set; the result and the class's new overrides are those of Transform |

## Left out

- Logging: the slf4j calls and `logMoreIfDebug` (lines 47, 67, 72, 75, 105, 114, 116, 119-120, 125-131) only write diagnostics. The `debug` flag is stored, and no operation of the model reads it, so it cannot change an outcome.
- The AfterBurner weaver and the compilation of the body into byte code are foreign byte-code rewriting. The weaver is an uninterpreted function passed to the constructor instead of the `new AfterBurner()` field initialiser. A successful weave is modelled as appending one `Override`. A failed weave is assumed to leave the class unchanged.
- Javassist's `ClassPool`, `CtClass` and `CtMethod` resolution: lookups are uninterpreted functions that may fail. `getName()` and `getClassPool()` are taken not to fail.
- The eight `JavassistUtils.is*` predicates and `hasAnnotation`: uninterpreted, possibly failing answers.
- `CtMethod` equality and hashing, and `HashSet` internals: a method is identified by its name and descriptor. Its access flags are a property of that identity, read through an oracle of the class. So two distinct `CtMethod` objects with one identity and different flags are not distinguished. `HashSet` iteration order is left unspecified.
- Access flags as a Java `int`: modelled as the 16-bit value the class file stores.
- The runtime value of `System.identityHashCode(this)`: it appears only as source text inside the statement.
- `IClassTransformer` integration with the build and any concurrency across classes.
