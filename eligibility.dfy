/**
 * shouldTransform and isSupported: a class is transformed when it carries the
 * LogLifeCycle annotation and belongs to one of the eight categories.
 */
module Eligibility {
  import opened Wrappers
  import opened Javassist

  /** The order in which isSupported asks the category queries. */
  const CategoryOrder: seq<Category> :=
    [Activity, Fragment, SupportFragment, View, Service, BroadcastReceiver, ContentProvider, Application]

  /** What a short-circuiting disjunction of queries returned, and which queries it asked. */
  datatype Probe = Probe(result: Result<bool, Exception>, queried: seq<Category>)

  /**
   * Asks the queries of `cats` from left to right as `||` does: it stops at
   * the first query that answers true or throws.
   */
  function ProbeCategories(c: CtClass, cats: seq<Category>): (p: Probe)
    ensures |p.queried| <= |cats| && p.queried == cats[..|p.queried|]
    ensures forall j :: 0 <= j < |p.queried| - 1 ==> c.isA(cats[j]) == Ok(false)
    ensures p.result == Ok(false) <==>
              |p.queried| == |cats| && forall j :: 0 <= j < |cats| ==> c.isA(cats[j]) == Ok(false)
    ensures p.result != Ok(false) ==> |p.queried| > 0 && c.isA(cats[|p.queried| - 1]) == p.result
    decreases |cats|
  {
    if cats == [] then Probe(Ok(false), [])
    else
      match c.isA(cats[0])
      case Ok(false) =>
        var rest := ProbeCategories(c, cats[1..]);
        Probe(rest.result, [cats[0]] + rest.queried)
      case decisive => Probe(decisive, [cats[0]])
  }

  /** isSupported: some category query holds (or the first failing one throws). */
  function IsSupported(c: CtClass): (r: Result<bool, Exception>)
    ensures r == Ok(false) <==> forall j :: 0 <= j < |CategoryOrder| ==> c.isA(CategoryOrder[j]) == Ok(false)
    ensures r != Ok(false) ==> exists j :: 0 <= j < |CategoryOrder| && c.isA(CategoryOrder[j]) == r
  {
    ProbeCategories(c, CategoryOrder).result
  }

  /**
   * shouldTransform: the categories are asked first, then the annotation;
   * any exception is rethrown wrapped in a JavassistBuildException.
   */
  function ShouldTransform(c: CtClass): (r: Result<bool, Exception>)
    ensures r.Err? ==> r.error.JavassistBuildException?
  {
    match IsSupported(c)
    case Err(e) => Err(JavassistBuildException(e))
    case Ok(supported) =>
      match c.hasAnnotation
      case Err(e) => Err(JavassistBuildException(e))
      case Ok(annotated) => Ok(annotated && supported)
  }

  /** Every category is in the query order. */
  lemma CategoryOrderComplete(cat: Category)
    ensures cat in CategoryOrder
  {
  }

  /** The query at position k decides isSupported when all earlier ones answered false. */
  lemma {:induction false} DecisiveQuery(c: CtClass, k: nat)
    requires k < |CategoryOrder| && c.isA(CategoryOrder[k]) != Ok(false)
    requires forall j :: 0 <= j < k ==> c.isA(CategoryOrder[j]) == Ok(false)
    ensures IsSupported(c) == c.isA(CategoryOrder[k])
    ensures ProbeCategories(c, CategoryOrder).queried == CategoryOrder[..k + 1]
  {
    var p := ProbeCategories(c, CategoryOrder);
    assert p.result != Ok(false);
    var n := |p.queried| - 1;
    if n < k {
      assert false;
    } else if n > k {
      assert false;
    }
  }

  /**
   * shouldTransform returns true iff the class is annotated and some query,
   * reached after only false answers, holds.
   */
  lemma ShouldTransformTrueIff(c: CtClass)
    ensures ShouldTransform(c) == Ok(true) <==>
              c.hasAnnotation == Ok(true) &&
              exists k :: 0 <= k < |CategoryOrder| && c.isA(CategoryOrder[k]) == Ok(true) &&
                          forall j :: 0 <= j < k ==> c.isA(CategoryOrder[j]) == Ok(false)
  {
    if ShouldTransform(c) == Ok(true) {
      var p := ProbeCategories(c, CategoryOrder);
      var k := |p.queried| - 1;
      assert c.isA(CategoryOrder[k]) == Ok(true);
    }
    if c.hasAnnotation == Ok(true) &&
       exists k :: 0 <= k < |CategoryOrder| && c.isA(CategoryOrder[k]) == Ok(true) &&
                   forall j :: 0 <= j < k ==> c.isA(CategoryOrder[j]) == Ok(false)
    {
      var k :| 0 <= k < |CategoryOrder| && c.isA(CategoryOrder[k]) == Ok(true) &&
               forall j :: 0 <= j < k ==> c.isA(CategoryOrder[j]) == Ok(false);
      DecisiveQuery(c, k);
    }
  }

  /**
   * When no query and no annotation lookup throws, shouldTransform is exactly
   * "annotated and of some category".
   */
  lemma ShouldTransformWhenResolved(c: CtClass)
    requires c.hasAnnotation.Ok?
    requires forall cat :: c.isA(cat).Ok?
    ensures ShouldTransform(c).Ok?
    ensures ShouldTransform(c).value <==> c.hasAnnotation.value && exists cat :: c.isA(cat) == Ok(true)
  {
    var p := ProbeCategories(c, CategoryOrder);
    if exists cat :: c.isA(cat) == Ok(true) {
      var cat :| c.isA(cat) == Ok(true);
      CategoryOrderComplete(cat);
      var i :| 0 <= i < |CategoryOrder| && CategoryOrder[i] == cat;
      assert c.isA(CategoryOrder[i]) != Ok(false);
      assert p.result != Ok(false);
      assert p.result.Ok?;
    } else {
      forall j | 0 <= j < |CategoryOrder| ensures c.isA(CategoryOrder[j]) == Ok(false) {
        assert c.isA(CategoryOrder[j]).Ok? && c.isA(CategoryOrder[j]) != Ok(true);
      }
    }
  }

  /**
   * A query that throws, reached after only false answers, makes shouldTransform
   * throw its exception wrapped, whether or not the class is annotated.
   */
  lemma QueryFailureIsWrapped(c: CtClass, k: nat)
    requires k < |CategoryOrder| && c.isA(CategoryOrder[k]).Err?
    requires forall j :: 0 <= j < k ==> c.isA(CategoryOrder[j]) == Ok(false)
    ensures ShouldTransform(c) == Err(JavassistBuildException(c.isA(CategoryOrder[k]).error))
  {
    DecisiveQuery(c, k);
  }

  /**
   * When isSupported has answered, an exception from the annotation lookup is
   * rethrown wrapped.
   */
  lemma AnnotationFailureIsWrapped(c: CtClass)
    requires IsSupported(c).Ok? && c.hasAnnotation.Err?
    ensures ShouldTransform(c) == Err(JavassistBuildException(c.hasAnnotation.error))
  {
  }

  /** Without the annotation, shouldTransform never answers true. */
  lemma UnannotatedIsRejected(c: CtClass)
    requires c.hasAnnotation == Ok(false)
    ensures ShouldTransform(c) != Ok(true)
    ensures IsSupported(c).Ok? ==> ShouldTransform(c) == Ok(false)
  {
  }

  /**
   * Queries after the decisive one are never asked: two classes that agree on
   * the queries the first one's probe asks probe identically.
   */
  lemma {:induction false} LaterQueriesIrrelevant(c1: CtClass, c2: CtClass, cats: seq<Category>)
    requires forall cat :: cat in ProbeCategories(c1, cats).queried ==> c1.isA(cat) == c2.isA(cat)
    ensures ProbeCategories(c2, cats) == ProbeCategories(c1, cats)
    decreases |cats|
  {
    if cats != [] {
      assert cats[0] in ProbeCategories(c1, cats).queried;
      if c1.isA(cats[0]) == Ok(false) {
        var q := ProbeCategories(c1, cats[1..]).queried;
        forall cat | cat in q ensures c1.isA(cat) == c2.isA(cat) {
          assert cat in [cats[0]] + q;
        }
        LaterQueriesIrrelevant(c1, c2, cats[1..]);
      }
    }
  }
}
