/**
 * getAllLifeCycleMethods: the inherited and declared methods of a class,
 * merged into one HashSet, and the array the set is turned into.
 */
module MethodCollector {
  import opened Wrappers
  import opened Javassist

  /** The two arrays the pool hands out: pool.get(name).getMethods(), then pool.get(name).getDeclaredMethods(). */
  function MethodArrays(pool: ClassPool, className: string): (r: Result<(seq<Method>, seq<Method>), Exception>)
    ensures r.Ok? <==> pool.get(className).Ok? && pool.get(className).value.getMethods.Ok? &&
                       pool.get(className).value.getDeclaredMethods.Ok?
    ensures pool.get(className).Err? ==> r == Err(pool.get(className).error)
    ensures pool.get(className).Ok? && pool.get(className).value.getMethods.Err? ==>
              r == Err(pool.get(className).value.getMethods.error)
    ensures pool.get(className).Ok? && pool.get(className).value.getMethods.Ok? &&
            pool.get(className).value.getDeclaredMethods.Err? ==>
              r == Err(pool.get(className).value.getDeclaredMethods.error)
    ensures r.Ok? ==> r.value.0 == pool.get(className).value.getMethods.value &&
                      r.value.1 == pool.get(className).value.getDeclaredMethods.value
  {
    match pool.get(className)
    case Err(e) => Err(e)
    case Ok(cls) =>
      match cls.getMethods
      case Err(e) => Err(e)
      case Ok(inherited) =>
        match cls.getDeclaredMethods
        case Err(e) => Err(e)
        case Ok(declared) => Ok((inherited, declared))
  }

  /** The methods getAllLifeCycleMethods collects, or the exception it throws. */
  function CollectedMethods(pool: ClassPool, className: string): (r: Result<set<Method>, Exception>)
    ensures r.Err? <==> MethodArrays(pool, className).Err?
    ensures r.Err? ==> r.error == MethodArrays(pool, className).error
    ensures r.Ok? ==> forall m :: m in r.value <==>
                        m in MethodArrays(pool, className).value.0 || m in MethodArrays(pool, className).value.1
  {
    match MethodArrays(pool, className)
    case Err(e) => Err(e)
    case Ok((inherited, declared)) => Ok((set m | m in inherited) + (set m | m in declared))
  }

  /**
   * The collected set does not depend on the order of either array or on
   * repetitions in them: two lookups whose arrays hold the same methods
   * collect the same set.
   */
  lemma CollectionIgnoresOrder(pool1: ClassPool, className1: string, pool2: ClassPool, className2: string)
    requires MethodArrays(pool1, className1).Ok? && MethodArrays(pool2, className2).Ok?
    requires var a1, a2 := MethodArrays(pool1, className1).value, MethodArrays(pool2, className2).value;
             forall m :: m in a1.0 + a1.1 <==> m in a2.0 + a2.1
    ensures CollectedMethods(pool1, className1) == CollectedMethods(pool2, className2)
  {
    var a1, a2 := MethodArrays(pool1, className1).value, MethodArrays(pool2, className2).value;
    var s1, s2 := CollectedMethods(pool1, className1).value, CollectedMethods(pool2, className2).value;
    forall m ensures m in s1 <==> m in s2 {
      assert m in a1.0 + a1.1 <==> m in a2.0 + a2.1;
      assert m in s1 <==> m in a1.0 || m in a1.1;
      assert m in s2 <==> m in a2.0 || m in a2.1;
    }
    assert s1 == s2;
  }

  /** getAllLifeCycleMethods: fills a set with the inherited methods, then the declared ones. */
  method GetAllLifeCycleMethods(pool: ClassPool, className: string) returns (r: Result<set<Method>, Exception>)
    ensures r == CollectedMethods(pool, className)
  {
    var methodSet: set<Method> := {};
    var cls := pool.get(className);
    if cls.Err? {
      return Err(cls.error);
    }
    var inheritedMethods := cls.value.getMethods;
    if inheritedMethods.Err? {
      return Err(inheritedMethods.error);
    }
    cls := pool.get(className);
    var declaredMethods := cls.value.getDeclaredMethods;
    if declaredMethods.Err? {
      return Err(declaredMethods.error);
    }
    var inherited, declared := inheritedMethods.value, declaredMethods.value;
    for i := 0 to |inherited|
      invariant methodSet == set m | m in inherited[..i]
    {
      methodSet := methodSet + {inherited[i]};
      assert inherited[..i + 1] == inherited[..i] + [inherited[i]];
    }
    assert inherited[..|inherited|] == inherited;
    for i := 0 to |declared|
      invariant methodSet == (set m | m in inherited) + (set m | m in declared[..i])
    {
      methodSet := methodSet + {declared[i]};
      assert declared[..i + 1] == declared[..i] + [declared[i]];
    }
    assert declared[..|declared|] == declared;
    return Ok(methodSet);
  }

  /** `a` lists every element of `s` exactly once. */
  predicate Enumerates(a: seq<Method>, s: set<Method>)
  {
    && |a| == |s|
    && (forall m :: m in a ==> m in s)
    && (forall m :: m in s ==> m in a)
    && (forall i, j :: 0 <= i < j < |a| ==> a[i] != a[j])
  }

  /** methodSet.toArray(): the elements of the set, in an order the set does not specify. */
  method ToArray(s: set<Method>) returns (a: seq<Method>)
    ensures Enumerates(a, s)
  {
    a := [];
    var rest := s;
    while rest != {}
      invariant rest <= s
      invariant forall m :: m in a <==> m in s && m !in rest
      invariant |a| + |rest| == |s|
      invariant forall i, j :: 0 <= i < j < |a| ==> a[i] != a[j]
      decreases |rest|
    {
      var m :| m in rest;
      a := a + [m];
      rest := rest - {m};
    }
  }
}
