/**
 * JVM method access flags (section 4.6, Table 4.6-A, of the Java Virtual
 * Machine Specification) and the tests Javassist's AccessFlag offers on them.
 */
module AccessFlag {
  import opened Wrappers

  const PUBLIC: bv16 := 0x0001
  const PRIVATE: bv16 := 0x0002
  const PROTECTED: bv16 := 0x0004
  const FINAL: bv16 := 0x0010

  predicate IsPublic(flags: bv16) { flags & PUBLIC != 0 }

  predicate IsProtected(flags: bv16) { flags & PROTECTED != 0 }

  /** Package (default) visibility: none of PUBLIC, PROTECTED, PRIVATE. */
  predicate IsPackage(flags: bv16) { flags & (PROTECTED | PUBLIC | PRIVATE) == 0 }

  predicate IsFinal(flags: bv16) { flags & FINAL == FINAL }

  /**
   * A method may be overridden for instrumentation unless it is final or
   * private only (private with neither public nor protected alongside).
   */
  function CanOverride(flags: bv16): (b: bool)
    ensures b <==> flags & FINAL == 0 && (flags & PRIVATE == 0 || flags & PUBLIC != 0 || flags & PROTECTED != 0)
  {
    !IsFinal(flags) && (IsPublic(flags) || IsProtected(flags) || IsPackage(flags))
  }

  datatype Visibility = Public | Protected | Package | Private

  /**
   * The visibility a well-formed method's flags denote; None when more than
   * one of PUBLIC, PROTECTED, PRIVATE is set, which the JVM specification
   * forbids for methods.
   */
  function VisibilityOf(flags: bv16): (v: Option<Visibility>)
    ensures v == Some(Public) <==> flags & (PUBLIC | PROTECTED | PRIVATE) == PUBLIC
    ensures v == Some(Protected) <==> flags & (PUBLIC | PROTECTED | PRIVATE) == PROTECTED
    ensures v == Some(Private) <==> flags & (PUBLIC | PROTECTED | PRIVATE) == PRIVATE
    ensures v == Some(Package) <==> IsPackage(flags)
  {
    var bits := flags & (PUBLIC | PROTECTED | PRIVATE);
    if bits == 0 then Some(Package)
    else if bits == PUBLIC then Some(Public)
    else if bits == PROTECTED then Some(Protected)
    else if bits == PRIVATE then Some(Private)
    else None
  }

  /** On well-formed flags: overridable iff not final and not private. */
  lemma CanOverrideByVisibility(flags: bv16)
    requires VisibilityOf(flags).Some?
    ensures CanOverride(flags) <==> !IsFinal(flags) && VisibilityOf(flags).value != Private
  {
  }
}
