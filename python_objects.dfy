/**
 * The slice of the Python object model that name resolution in zExceptions
 * depends on: values that a namespace can bind, classes with their bases,
 * and the `issubclass` relation over a table of classes.
 */
module PyObjects {

  /** Classes are numbered in creation order. */
  type ClassId = nat

  /**
   * A class object: its `__name__`, its `__module__` and its direct bases.
   * Two classes with the same name and module are still distinct classes.
   */
  datatype ClassInfo = ClassInfo(name: string, moduleName: string, bases: seq<ClassId>)

  /** Every class that exists, by identity. */
  type Hierarchy = map<ClassId, ClassInfo>

  /**
   * The Python values the model tells apart. `VClass` is a class object,
   * `VTuple` a tuple, `VObject` anything else (a function, a module, an
   * interface declaration), described only by the name of its type.
   */
  datatype Value =
    | VNone
    | VStr(s: string)
    | VClass(cls: ClassId)
    | VTuple(items: seq<Value>)
    | VObject(typeName: string)

  /** A `(type, value)` pair as re-raised by callers. */
  type ExcInfo = (Value, Value)

  /**
   * A class statement can only name bases that already exist, so every base
   * is older than the class deriving from it; this rules out cycles.
   */
  predicate WellFormed(h: Hierarchy) {
    forall c, i :: c in h && 0 <= i < |h[c].bases| ==> h[c].bases[i] in h && h[c].bases[i] < c
  }

  /**
   * `issubclass(c, t)`: `t` is `c` itself or an ancestor through some chain
   * of bases. An ancestor always exists and is never younger than `c`.
   */
  function IsSubclass(h: Hierarchy, c: ClassId, t: ClassId): (r: bool)
    requires WellFormed(h) && c in h
    ensures r ==> t in h && t <= c
    decreases c
  {
    c == t || exists i :: 0 <= i < |h[c].bases| && IsSubclass(h, h[c].bases[i], t)
  }

  /** Deriving from a class that derives from `t` is deriving from `t`. */
  lemma {:induction false} SubclassTransitive(h: Hierarchy, a: ClassId, b: ClassId, t: ClassId)
    requires WellFormed(h) && a in h && b in h
    requires IsSubclass(h, a, b) && IsSubclass(h, b, t)
    ensures IsSubclass(h, a, t)
    decreases a
  {
    if a != b {
      var i :| 0 <= i < |h[a].bases| && IsSubclass(h, h[a].bases[i], b);
      SubclassTransitive(h, h[a].bases[i], b, t);
    }
  }

  /** Two distinct classes never derive from each other in both directions. */
  lemma SubclassAntisymmetric(h: Hierarchy, a: ClassId, b: ClassId)
    requires WellFormed(h) && a in h && b in h
    requires IsSubclass(h, a, b) && IsSubclass(h, b, a)
    ensures a == b
  {
  }

  /** A class with a base deriving from `t` derives from `t`. */
  lemma BaseDerives(h: Hierarchy, c: ClassId, i: nat, t: ClassId)
    requires WellFormed(h) && c in h && i < |h[c].bases|
    requires IsSubclass(h, h[c].bases[i], t)
    ensures IsSubclass(h, c, t)
  {
  }

  /** With a single base, deriving means being `t` or the base deriving from `t`. */
  lemma SingleBaseSubclass(h: Hierarchy, c: ClassId, t: ClassId)
    requires WellFormed(h) && c in h && |h[c].bases| == 1
    ensures IsSubclass(h, c, t) <==> c == t || IsSubclass(h, h[c].bases[0], t)
  {
  }

  /** A class without bases derives from nothing but itself. */
  lemma RootDerivesOnlyFromItself(h: Hierarchy, c: ClassId, t: ClassId)
    requires WellFormed(h) && c in h && h[c].bases == []
    ensures IsSubclass(h, c, t) <==> c == t
  {
  }
}
