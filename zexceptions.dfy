/**
 * Legacy exception-name resolution and upgrade of the zExceptions package:
 * `convertExceptionType` and `upgradeException`.
 *
 * The interpreter state these two functions read is passed in as an `Env`:
 * the class table, the `builtins` namespace, the attribute namespace of the
 * `zExceptions` module, and the two classes the code names directly, the
 * builtin `Exception` and the module's `InternalError`.
 */
module ZExceptions {
  import opened PyObjects

  /** A namespace: attribute name to the object bound to it. */
  type Namespace = map<string, Value>

  datatype Env = Env(
    classes: Hierarchy,
    builtins: Namespace,
    moduleNs: Namespace,
    exception: ClassId,
    internalError: ClassId)

  /**
   * The names the code of the module looks up as globals: the module's own
   * attributes first, then builtins (the right operand of map `+` wins).
   */
  function Globals(env: Env): (g: Namespace)
    ensures forall n | n in env.moduleNs :: n in g && g[n] == env.moduleNs[n]
    ensures forall n | n !in env.moduleNs :: (n in g <==> n in env.builtins)
    ensures forall n | n !in env.moduleNs && n in env.builtins :: g[n] == env.builtins[n]
  {
    env.builtins + env.moduleNs
  }

  /**
   * Necessary conditions on the interpreter states an `Env` can stand for:
   * the class table is acyclic, every class a namespace binds exists, the
   * global `Exception` of line 69 is `env.exception`, the global
   * `InternalError` of line 89 is the module's own attribute
   * `env.internalError`, and `InternalError` derives from `Exception`
   * (line 38).
   */
  predicate EnvValid(env: Env) {
    && WellFormed(env.classes)
    && (forall n | n in env.builtins && env.builtins[n].VClass? :: env.builtins[n].cls in env.classes)
    && (forall n | n in env.moduleNs && env.moduleNs[n].VClass? :: env.moduleNs[n].cls in env.classes)
    && "Exception" in Globals(env) && Globals(env)["Exception"] == VClass(env.exception)
    && "InternalError" in env.moduleNs && env.moduleNs["InternalError"] == VClass(env.internalError)
    && env.exception in env.classes
    && env.internalError in env.classes
    && IsSubclass(env.classes, env.internalError, env.exception)
  }

  /** `isinstance(e, class_types) and issubclass(e, Exception)`. */
  predicate IsExceptionClass(env: Env, e: Value)
    requires WellFormed(env.classes)
  {
    e.VClass? && e.cls in env.classes && IsSubclass(env.classes, e.cls, env.exception)
  }

  /**
   * The object `etype` is bound to before the filter (lines 62-66). The
   * `elif` makes builtins shadow the module, so this is a lookup in the
   * module namespace overlaid by builtins (the right operand of map `+`
   * wins), and None when neither binds the name.
   */
  function BoundEntity(env: Env, name: string): (r: Value)
    ensures var merged := env.moduleNs + env.builtins;
            r == if name in merged then merged[name] else VNone
  {
    if name in env.builtins then env.builtins[name]
    else if name in env.moduleNs then env.moduleNs[name]
    else VNone
  }

  /**
   * `convertExceptionType(name)`: the object the name is bound to, when that
   * object is a class deriving from `Exception`; None otherwise.
   */
  function ConvertExceptionType(env: Env, name: string): (r: Value)
    requires WellFormed(env.classes)
    ensures r == VNone || IsExceptionClass(env, r)
    ensures r != VNone <==> IsExceptionClass(env, BoundEntity(env, name))
    ensures r != VNone ==> r == BoundEntity(env, name)
  {
    var etype := BoundEntity(env, name);
    // the three tests of lines 67-69; IsExceptionClass holds the last two
    if etype != VNone && IsExceptionClass(env, etype) then etype else VNone
  }

  /**
   * `upgradeException(t, v)`: a non-string `t` passes through with `v`; a
   * string that resolves is replaced by the class it names; any other
   * string becomes `InternalError` with the pair `(t, v)` as its value.
   */
  function UpgradeException(env: Env, t: Value, v: Value): (r: ExcInfo)
    requires WellFormed(env.classes)
    ensures !t.VStr? ==> r == (t, v)
    ensures t.VStr? && ConvertExceptionType(env, t.s) != VNone
            ==> r.0 == ConvertExceptionType(env, t.s) && IsExceptionClass(env, r.0) && r.1 == v
    ensures t.VStr? && ConvertExceptionType(env, t.s) == VNone
            ==> r == (VClass(env.internalError), VTuple([t, v]))
    ensures !r.0.VStr?
  {
    if t.VStr? then
      var etype := ConvertExceptionType(env, t.s);
      if etype != VNone then (etype, v)
      else (VClass(env.internalError), VTuple([t, v]))
    else (t, v)
  }

  // ---------------------------------------------------------------------
  // Resolution: precedence, filter and the cases that give None.

  /** A builtin exception class is returned as it is. */
  lemma BuiltinExceptionWins(env: Env, name: string)
    requires WellFormed(env.classes)
    requires name in env.builtins && IsExceptionClass(env, env.builtins[name])
    ensures ConvertExceptionType(env, name) == env.builtins[name]
  {
  }

  /**
   * A builtin binding that is not an exception class gives None, whatever
   * the module binds under the same name: builtins shadow the module.
   */
  lemma BuiltinShadowsModule(env: Env, name: string)
    requires WellFormed(env.classes)
    requires name in env.builtins && !IsExceptionClass(env, env.builtins[name])
    ensures ConvertExceptionType(env, name) == VNone
  {
  }

  /** Without a builtin binding, a module exception class is returned. */
  lemma ModuleFallback(env: Env, name: string)
    requires WellFormed(env.classes)
    requires name !in env.builtins && name in env.moduleNs
    requires IsExceptionClass(env, env.moduleNs[name])
    ensures ConvertExceptionType(env, name) == env.moduleNs[name]
  {
  }

  /** A module attribute that is not an exception class gives None. */
  lemma ModuleNonExceptionIsNone(env: Env, name: string)
    requires WellFormed(env.classes)
    requires name !in env.builtins && name in env.moduleNs
    requires !IsExceptionClass(env, env.moduleNs[name])
    ensures ConvertExceptionType(env, name) == VNone
  {
  }

  /** A name bound in neither namespace gives None. */
  lemma UnboundIsNone(env: Env, name: string)
    requires WellFormed(env.classes)
    requires name !in env.builtins && name !in env.moduleNs
    ensures ConvertExceptionType(env, name) == VNone
  {
  }

  /**
   * Resolution is a lookup in the module namespace overlaid with builtins
   * (the right operand of map `+` wins), followed by the exception-class
   * filter: a corollary of the contracts of `BoundEntity` and
   * `ConvertExceptionType`, stated in one place.
   */
  lemma ConvertIsOverlayLookup(env: Env, name: string)
    requires WellFormed(env.classes)
    ensures var merged := env.moduleNs + env.builtins;
            ConvertExceptionType(env, name)
            == if name in merged && IsExceptionClass(env, merged[name]) then merged[name] else VNone
  {
  }

  /**
   * A class that derives from a resolvable exception class is itself
   * accepted by the filter, wherever it is bound.
   */
  lemma SubclassOfExceptionIsAccepted(env: Env, c: ClassId, d: ClassId)
    requires WellFormed(env.classes) && c in env.classes
    requires IsExceptionClass(env, VClass(d)) && IsSubclass(env.classes, c, d)
    ensures IsExceptionClass(env, VClass(c))
  {
    SubclassTransitive(env.classes, c, d, env.exception);
  }

  /**
   * In a valid environment every class a name can be bound to is in the
   * table, so the filter is exactly `isinstance(etype, class_types) and
   * issubclass(etype, Exception)`, with `Exception` the class the global
   * name is bound to.
   */
  lemma ValidEnvFilterIsSubclassCheck(env: Env, name: string)
    requires EnvValid(env)
    ensures env.exception in env.classes && Globals(env)["Exception"] == VClass(env.exception)
    ensures var e := BoundEntity(env, name);
            e.VClass? ==> e.cls in env.classes
                          && (IsExceptionClass(env, e) <==> IsSubclass(env.classes, e.cls, Globals(env)["Exception"].cls))
  {
  }

  // ---------------------------------------------------------------------
  // Upgrade: the three outcomes and what survives them.

  /** Upgrading an upgraded pair changes nothing more. */
  lemma UpgradeIdempotent(env: Env, t: Value, v: Value)
    requires WellFormed(env.classes)
    ensures var r := UpgradeException(env, t, v);
            UpgradeException(env, r.0, r.1) == r
  {
  }

  /**
   * On the fallback path nothing is lost: two unresolvable string pairs
   * upgrade to the same pair only if they were the same pair.
   */
  lemma UpgradeMissInjective(env: Env, t1: string, v1: Value, t2: string, v2: Value)
    requires WellFormed(env.classes)
    requires ConvertExceptionType(env, t1) == VNone && ConvertExceptionType(env, t2) == VNone
    requires UpgradeException(env, VStr(t1), v1) == UpgradeException(env, VStr(t2), v2)
    ensures t1 == t2 && v1 == v2
  {
  }

  /**
   * The original pair can be read back from the fallback result: the name
   * is the first item of the new value, the old value the second.
   */
  lemma UpgradeMissRecoverable(env: Env, t: string, v: Value)
    requires WellFormed(env.classes)
    requires ConvertExceptionType(env, t) == VNone
    ensures var r := UpgradeException(env, VStr(t), v);
            r.1.VTuple? && |r.1.items| == 2 && r.1.items[0] == VStr(t) && r.1.items[1] == v
  {
  }

  /**
   * The fallback result cannot be told apart from an `InternalError` that
   * was raised with a tuple value: upgrading is not injective overall.
   */
  lemma UpgradeMissCollides(env: Env, t: string, v: Value)
    requires WellFormed(env.classes)
    requires ConvertExceptionType(env, t) == VNone
    ensures UpgradeException(env, VStr(t), v)
            == UpgradeException(env, VClass(env.internalError), VTuple([VStr(t), v]))
  {
  }

  /**
   * In a valid environment a miss gives the class the module binds to the
   * name `InternalError`, the global that line 89 reads, and keeps the
   * name and the value in the new value.
   */
  lemma ValidMissIsModuleInternalError(env: Env, t: string, v: Value)
    requires EnvValid(env)
    requires ConvertExceptionType(env, t) == VNone
    ensures UpgradeException(env, VStr(t), v) == (env.moduleNs["InternalError"], VTuple([VStr(t), v]))
    ensures IsExceptionClass(env, env.moduleNs["InternalError"])
  {
  }

  /**
   * When `InternalError` is an exception class, every upgraded type that came
   * from a string is an exception class.
   */
  lemma UpgradedStringIsException(env: Env, t: string, v: Value)
    requires WellFormed(env.classes) && env.internalError in env.classes
    requires IsSubclass(env.classes, env.internalError, env.exception)
    ensures IsExceptionClass(env, UpgradeException(env, VStr(t), v).0)
  {
  }
}
