/**
 * The Java source fragment woven at the end of every instrumented method:
 *   android.util.Log.d("LogLifeCycle", "<class> [" + System.identityHashCode(this) + "] ⟳ <method>");
 * with ⟳ the character U+27F3.
 */
module LifeCycleStatement {
  import opened Wrappers

  /** The log call and the tag, and the opening quote of the message. */
  const Prefix: string := "android.util.Log.d(\"LogLifeCycle\", \""
  /** Between the class name and the method name: the instance's identity hash and the glyph. */
  const Middle: string := " [\" + System.identityHashCode(this) + \"] \U{27F3} "
  /** The closing quote, parenthesis and semicolon. */
  const Suffix: string := "\");"

  /** The statement logged on entry to `methodName` of `className`. */
  function LogStatement(className: string, methodName: string): (r: string)
    ensures |r| == |Prefix| + |className| + |Middle| + |methodName| + |Suffix|
    ensures r[..|Prefix|] == Prefix && r[|r| - |Suffix|..] == Suffix
    ensures r[|Prefix|..|Prefix| + |className|] == className
    ensures r[|Prefix| + |className|..|Prefix| + |className| + |Middle|] == Middle
    ensures r[|Prefix| + |className| + |Middle|..|r| - |Suffix|] == methodName
  {
    Prefix + className + Middle + methodName + Suffix
  }

  /** The index of the first space in `s`, or |s| when there is none. */
  function IndexOfSpace(s: string): (i: nat)
    ensures i <= |s| && (i < |s| ==> s[i] == ' ')
    ensures forall j :: 0 <= j < i ==> s[j] != ' '
  {
    if s == [] || s[0] == ' ' then 0 else 1 + IndexOfSpace(s[1..])
  }

  /**
   * Recovers the class and method names from a statement; the class name
   * ends at the first space (Java class names contain none).
   */
  function ParseLogStatement(s: string): Option<(string, string)>
  {
    if |s| < |Prefix| + |Suffix| || s[..|Prefix|] != Prefix || s[|s| - |Suffix|..] != Suffix then None
    else
      var inner := s[|Prefix|..|s| - |Suffix|];
      var i := IndexOfSpace(inner);
      if |inner| - i < |Middle| || inner[i..i + |Middle|] != Middle then None
      else Some((inner[..i], inner[i + |Middle|..]))
  }

  /** The statement carries its class and method names, and they can be read back. */
  lemma ParseLogStatementInverts(className: string, methodName: string)
    requires ' ' !in className
    ensures ParseLogStatement(LogStatement(className, methodName)) == Some((className, methodName))
  {
    var s := LogStatement(className, methodName);
    assert s[..|Prefix|] == Prefix;
    assert s[|s| - |Suffix|..] == Suffix;
    var inner := s[|Prefix|..|s| - |Suffix|];
    assert inner == className + Middle + methodName;
    var i := IndexOfSpace(inner);
    if i < |className| {
      assert false;
    }
    assert inner[|className|] == Middle[0] == ' ';
    assert i == |className|;
    assert inner[i..i + |Middle|] == Middle;
    assert inner[..i] == className;
    assert inner[i + |Middle|..] == methodName;
  }

  /** Only statements of the generated shape are read back. */
  lemma ParseLogStatementSound(s: string, className: string, methodName: string)
    requires ParseLogStatement(s) == Some((className, methodName))
    ensures ' ' !in className
    ensures s == LogStatement(className, methodName)
  {
    var inner := s[|Prefix|..|s| - |Suffix|];
    var i := IndexOfSpace(inner);
    assert inner == inner[..i] + inner[i..i + |Middle|] + inner[i + |Middle|..];
    assert s == s[..|Prefix|] + inner + s[|s| - |Suffix|..];
  }

  /** Different class or method names give different statements. */
  lemma LogStatementInjective(c1: string, m1: string, c2: string, m2: string)
    requires ' ' !in c1 && ' ' !in c2
    requires LogStatement(c1, m1) == LogStatement(c2, m2)
    ensures c1 == c2 && m1 == m2
  {
    ParseLogStatementInverts(c1, m1);
    ParseLogStatementInverts(c2, m2);
  }
}
