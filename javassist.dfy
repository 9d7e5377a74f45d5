/**
 * The collaborators the processor talks to, reduced to what it observes:
 * Javassist's class handle and class pool, the category predicates of
 * JavassistUtils, and the AfterBurner weaver. Every call into them is an
 * uninterpreted function that may fail with an exception.
 */
module Javassist {
  import opened Wrappers

  /** The exceptions that can reach the processor. */
  datatype Exception =
    | NotFoundException(what: string)
    | CannotCompileException(message: string)
    | AfterBurnerImpossibleException(message: string)
    | RuntimeException(message: string)
    | JavassistBuildException(cause: Exception)

  /** The eight component kinds recognised by the category queries. */
  datatype Category =
    | Activity | Fragment | SupportFragment | View
    | Service | BroadcastReceiver | ContentProvider | Application

  /**
   * A CtMethod, identified by its name and its descriptor. (Javassist's own
   * equals compares the name and the parameter part of the descriptor only.)
   */
  datatype Method = Method(name: string, descriptor: string)

  /** What the pool resolves a class name to: its inherited and declared methods. */
  datatype ClassDef = ClassDef(
    getMethods: Result<seq<Method>, Exception>,
    getDeclaredMethods: Result<seq<Method>, Exception>)

  /** The class pool: resolving a fully qualified name may fail. */
  datatype ClassPool = ClassPool(get: string -> Result<ClassDef, Exception>)

  /** A logging statement the weaver has appended to an override of `methodName`. */
  datatype Override = Override(methodName: string, body: string)

  /**
   * The class being examined and transformed. Everything but `overrides` is
   * read-only metadata; `overrides` records what the weaver has done to it.
   */
  class CtClass {
    const name: string
    /** hasAnnotation(LogLifeCycle.class) */
    const hasAnnotation: Result<bool, Exception>
    /** The category queries isActivity, isFragment, ... of JavassistUtils. */
    const isA: Category -> Result<bool, Exception>
    /** getClassPool() */
    const pool: ClassPool
    /** getMethodInfo().getAccessFlags() of each of its methods. */
    const methodInfo: Method -> Result<bv16, Exception>
    var overrides: seq<Override>

    constructor (name: string, hasAnnotation: Result<bool, Exception>,
                 isA: Category -> Result<bool, Exception>, pool: ClassPool,
                 methodInfo: Method -> Result<bv16, Exception>)
      ensures this.name == name && this.hasAnnotation == hasAnnotation
      ensures this.isA == isA && this.pool == pool && this.methodInfo == methodInfo
      ensures overrides == []
    {
      this.name := name;
      this.hasAnnotation := hasAnnotation;
      this.isA := isA;
      this.pool := pool;
      this.methodInfo := methodInfo;
      overrides := [];
    }
  }

  /**
   * AfterBurner.afterOverrideMethod(class, methodName, body): given the class
   * and the overrides woven into it so far, it either succeeds (None) or
   * throws.
   */
  type AfterBurner = (CtClass, seq<Override>, string, string) -> Option<Exception>
}
