/**
 * The environment zExceptions runs in once imported under Python 3: a
 * representative part of the builtins namespace, the attributes of the
 * `zExceptions` module, and the classes both refer to. The lemmas replay
 * the package's own test cases against it.
 */
module ZExceptionsRuntime {
  import opened PyObjects
  import opened ZExceptions

  // Builtin classes, in creation order.
  const Object: ClassId := 0
  const Type: ClassId := 1
  const Int: ClassId := 2
  const Str: ClassId := 3
  const BaseException: ClassId := 4
  const Exception: ClassId := 5
  const KeyboardInterrupt: ClassId := 6
  const SyntaxError: ClassId := 7
  const OSError: ClassId := 8
  const Warning: ClassId := 9
  const DeprecationWarning: ClassId := 10
  // Classes from packages zExceptions imports.
  const Implementer: ClassId := 11
  const Unauthorized: ClassId := 12
  // The six classes zExceptions defines.
  const BadRequest: ClassId := 13
  const InternalError: ClassId := 14
  const NotFound: ClassId := 15
  const Forbidden: ClassId := 16
  const MethodNotAllowed: ClassId := 17
  const Redirect: ClassId := 18
  // A class named NotFound that a test module defines for itself.
  const LocalNotFound: ClassId := 19

  /** The classes in creation order: the id of a class is its index. */
  const Created: seq<ClassInfo> := [
    ClassInfo("object", "builtins", []),
    ClassInfo("type", "builtins", [Object]),
    ClassInfo("int", "builtins", [Object]),
    ClassInfo("str", "builtins", [Object]),
    ClassInfo("BaseException", "builtins", [Object]),
    ClassInfo("Exception", "builtins", [BaseException]),
    ClassInfo("KeyboardInterrupt", "builtins", [BaseException]),
    ClassInfo("SyntaxError", "builtins", [Exception]),
    ClassInfo("OSError", "builtins", [Exception]),
    ClassInfo("Warning", "builtins", [Exception]),
    ClassInfo("DeprecationWarning", "builtins", [Warning]),
    ClassInfo("implementer", "zope.interface.declarations", [Object]),
    ClassInfo("Unauthorized", "zExceptions.unauthorized", [Exception]),
    ClassInfo("BadRequest", "zExceptions", [Exception]),
    ClassInfo("InternalError", "zExceptions", [Exception]),
    ClassInfo("NotFound", "zExceptions", [Exception]),
    ClassInfo("Forbidden", "zExceptions", [Exception]),
    ClassInfo("MethodNotAllowed", "zExceptions", [Exception]),
    ClassInfo("Redirect", "zExceptions", [Exception]),
    ClassInfo("NotFound", "zExceptions.tests.test___init__", [Exception])
  ]

  const Classes: Hierarchy := map c | 0 <= c < |Created| :: Created[c]

  const Builtins: Namespace := map[
    "object" := VClass(Object),
    "int" := VClass(Int),
    "BaseException" := VClass(BaseException),
    "Exception" := VClass(Exception),
    "KeyboardInterrupt" := VClass(KeyboardInterrupt),
    "SyntaxError" := VClass(SyntaxError),
    "OSError" := VClass(OSError),
    "EnvironmentError" := VClass(OSError),
    "Warning" := VClass(Warning),
    "DeprecationWarning" := VClass(DeprecationWarning),
    "len" := VObject("builtin_function_or_method"),
    "None" := VNone,
    "__name__" := VStr("builtins")
  ]

  /** The attributes of the imported `zExceptions` module. */
  const Module: Namespace := map[
    "warnings" := VObject("module"),
    "implementer" := VClass(Implementer),
    "IException" := VObject("InterfaceClass"),
    "INotFound" := VObject("InterfaceClass"),
    "IForbidden" := VObject("InterfaceClass"),
    "Unauthorized" := VClass(Unauthorized),
    "builtins" := VObject("module"),
    "class_types" := VTuple([VClass(Type)]),
    "string_types" := VTuple([VClass(Str)]),
    "BadRequest" := VClass(BadRequest),
    "InternalError" := VClass(InternalError),
    "NotFound" := VClass(NotFound),
    "Forbidden" := VClass(Forbidden),
    "MethodNotAllowed" := VClass(MethodNotAllowed),
    "Redirect" := VClass(Redirect),
    "convertExceptionType" := VObject("function"),
    "upgradeException" := VObject("function"),
    "__name__" := VStr("zExceptions")
  ]

  const Runtime: Env := Env(Classes, Builtins, Module, Exception, InternalError)

  /** Every class in the table was created after its bases. */
  lemma RuntimeWellFormed()
    ensures WellFormed(Runtime.classes)
  {
    forall c, i | 0 <= c < |Created| && 0 <= i < |Created[c].bases|
      ensures Created[c].bases[i] < c
    {
    }
  }

  /** Every class either namespace binds is in the table. */
  lemma RuntimeBindsKnownClasses()
    ensures forall n | n in Builtins && Builtins[n].VClass? :: Builtins[n].cls in Classes
    ensures forall n | n in Module && Module[n].VClass? :: Module[n].cls in Classes
  {
    assert forall n | n in Builtins && Builtins[n].VClass? :: Builtins[n].cls < |Created|;
    assert forall n | n in Module && Module[n].VClass? :: Module[n].cls < |Created|;
  }

  /**
   * The globals the code names: `Exception` is the builtin class, which the
   * module does not rebind, and `InternalError` is the module's own class.
   */
  lemma RuntimeGlobals()
    ensures "Exception" in Globals(Runtime) && Globals(Runtime)["Exception"] == VClass(Exception)
    ensures "InternalError" in Module && Module["InternalError"] == VClass(InternalError)
  {
    assert "Exception" !in Module;
    assert "Exception" in Builtins && Builtins["Exception"] == VClass(Exception);
  }

  /**
   * The runtime is a state an interpreter can be in: every class bound in
   * either namespace exists, the global names `Exception` and
   * `InternalError` denote the classes the `Env` names, and InternalError
   * derives from Exception.
   */
  lemma RuntimeValid()
    ensures EnvValid(Runtime)
  {
    RuntimeWellFormed();
    RuntimeBindsKnownClasses();
    RuntimeGlobals();
    BaseDerives(Classes, InternalError, 0, Exception);
  }

  // ---------------------------------------------------------------------
  // convertExceptionType

  /** 'SyntaxError' names the builtin class. */
  lemma ConvertSyntaxError()
    ensures WellFormed(Runtime.classes)
    ensures ConvertExceptionType(Runtime, "SyntaxError") == VClass(SyntaxError)
  {
    RuntimeWellFormed();
    assert "SyntaxError" in Builtins && Builtins["SyntaxError"] == VClass(SyntaxError);
    BaseDerives(Classes, SyntaxError, 0, Exception);
    BuiltinExceptionWins(Runtime, "SyntaxError");
  }

  /**
   * 'unichr' is no longer a builtin, and the module has no such attribute:
   * None.
   */
  lemma ConvertUnichr()
    ensures WellFormed(Runtime.classes)
    ensures ConvertExceptionType(Runtime, "unichr") == VNone
  {
    RuntimeWellFormed();
    assert "unichr" !in Builtins;
    assert "unichr" !in Module;
    UnboundIsNone(Runtime, "unichr");
  }

  /** A builtin function and None itself give None. */
  lemma ConvertBuiltinNonClass()
    ensures WellFormed(Runtime.classes)
    ensures ConvertExceptionType(Runtime, "len") == VNone
    ensures ConvertExceptionType(Runtime, "None") == VNone
  {
    RuntimeWellFormed();
    assert "len" in Builtins && Builtins["len"].VObject?;
    BuiltinShadowsModule(Runtime, "len");
    assert "None" in Builtins && Builtins["None"] == VNone;
    BuiltinShadowsModule(Runtime, "None");
  }

  /** A builtin class outside the exception tree gives None. */
  lemma ConvertBuiltinPlainClass()
    ensures WellFormed(Runtime.classes)
    ensures ConvertExceptionType(Runtime, "int") == VNone
  {
    RuntimeWellFormed();
    RootDerivesOnlyFromItself(Classes, Object, Exception);
    SingleBaseSubclass(Classes, Int, Exception);
    assert "int" in Builtins && Builtins["int"] == VClass(Int);
    BuiltinShadowsModule(Runtime, "int");
  }

  /**
   * KeyboardInterrupt derives from BaseException but not from Exception,
   * so the filter rejects it.
   */
  lemma ConvertKeyboardInterrupt()
    ensures WellFormed(Runtime.classes)
    ensures ConvertExceptionType(Runtime, "KeyboardInterrupt") == VNone
  {
    RuntimeWellFormed();
    RootDerivesOnlyFromItself(Classes, Object, Exception);
    SingleBaseSubclass(Classes, BaseException, Exception);
    SingleBaseSubclass(Classes, KeyboardInterrupt, Exception);
    assert "KeyboardInterrupt" in Builtins && Builtins["KeyboardInterrupt"] == VClass(KeyboardInterrupt);
    BuiltinShadowsModule(Runtime, "KeyboardInterrupt");
  }

  /** A class two levels below Exception is accepted. */
  lemma ConvertDeepSubclass()
    ensures WellFormed(Runtime.classes)
    ensures ConvertExceptionType(Runtime, "DeprecationWarning") == VClass(DeprecationWarning)
  {
    RuntimeWellFormed();
    BaseDerives(Classes, Warning, 0, Exception);
    BaseDerives(Classes, DeprecationWarning, 0, Exception);
    assert "DeprecationWarning" in Builtins && Builtins["DeprecationWarning"] == VClass(DeprecationWarning);
    BuiltinExceptionWins(Runtime, "DeprecationWarning");
  }

  /** An alias gives the class it is bound to, whatever that class is called. */
  lemma ConvertAlias()
    ensures WellFormed(Runtime.classes)
    ensures ConvertExceptionType(Runtime, "EnvironmentError") == VClass(OSError)
    ensures Classes[OSError].name == "OSError"
  {
    RuntimeWellFormed();
    BaseDerives(Classes, OSError, 0, Exception);
    assert "EnvironmentError" in Builtins && Builtins["EnvironmentError"] == VClass(OSError);
    BuiltinExceptionWins(Runtime, "EnvironmentError");
  }

  /** 'Redirect' is not a builtin, so the module's class is found. */
  lemma ConvertRedirect()
    ensures WellFormed(Runtime.classes)
    ensures ConvertExceptionType(Runtime, "Redirect") == VClass(Redirect)
  {
    RuntimeWellFormed();
    assert "Redirect" !in Builtins;
    assert "Redirect" in Module && Module["Redirect"] == VClass(Redirect);
    BaseDerives(Classes, Redirect, 0, Exception);
    ModuleFallback(Runtime, "Redirect");
  }

  /**
   * Any module class deriving directly from Exception, under a name that
   * builtins lacks, resolves to itself: this covers BadRequest,
   * InternalError, NotFound, Forbidden, MethodNotAllowed, Redirect and
   * Unauthorized.
   */
  lemma ModuleClassResolves(n: string, c: ClassId)
    requires n !in Builtins && n in Module && Module[n] == VClass(c)
    requires c in Classes && Classes[c].bases == [Exception]
    ensures WellFormed(Runtime.classes)
    ensures ConvertExceptionType(Runtime, n) == VClass(c)
  {
    RuntimeWellFormed();
    BaseDerives(Classes, c, 0, Exception);
    ModuleFallback(Runtime, n);
  }

  /** The module's own function 'convertExceptionType' is not an exception class. */
  lemma ConvertModuleFunction()
    ensures WellFormed(Runtime.classes)
    ensures ConvertExceptionType(Runtime, "convertExceptionType") == VNone
  {
    RuntimeWellFormed();
    assert "convertExceptionType" !in Builtins;
    ModuleNonExceptionIsNone(Runtime, "convertExceptionType");
  }

  /** An interface declaration imported into the module is not a class. */
  lemma ConvertModuleInterface()
    ensures WellFormed(Runtime.classes)
    ensures ConvertExceptionType(Runtime, "INotFound") == VNone
  {
    RuntimeWellFormed();
    assert "INotFound" !in Builtins;
    ModuleNonExceptionIsNone(Runtime, "INotFound");
  }

  /** A module class that does not derive from Exception gives None. */
  lemma ConvertModuleNonExceptionClass()
    ensures WellFormed(Runtime.classes)
    ensures ConvertExceptionType(Runtime, "implementer") == VNone
  {
    RuntimeWellFormed();
    RootDerivesOnlyFromItself(Classes, Object, Exception);
    SingleBaseSubclass(Classes, Implementer, Exception);
    assert "implementer" !in Builtins;
    ModuleNonExceptionIsNone(Runtime, "implementer");
  }

  // ---------------------------------------------------------------------
  // upgradeException

  /** A class passes through together with its value. */
  lemma UpgradeNonString()
    ensures WellFormed(Runtime.classes)
    ensures UpgradeException(Runtime, VClass(SyntaxError), VStr("TEST"))
            == (VClass(SyntaxError), VStr("TEST"))
  {
    RuntimeWellFormed();
  }

  /** 'SyntaxError' is upgraded to the builtin class. */
  lemma UpgradeBuiltinName()
    ensures WellFormed(Runtime.classes)
    ensures UpgradeException(Runtime, VStr("SyntaxError"), VStr("TEST"))
            == (VClass(SyntaxError), VStr("TEST"))
  {
    ConvertSyntaxError();
  }

  /** 'Redirect' is upgraded to the module's class, the URL kept as value. */
  lemma UpgradeModuleName()
    ensures WellFormed(Runtime.classes)
    ensures UpgradeException(Runtime, VStr("Redirect"), VStr("http://example.com/"))
            == (VClass(Redirect), VStr("http://example.com/"))
  {
    ConvertRedirect();
  }

  /** An unknown name becomes InternalError carrying ('Nonesuch', 'TEST'). */
  lemma UpgradeUnknownName()
    ensures WellFormed(Runtime.classes)
    ensures UpgradeException(Runtime, VStr("Nonesuch"), VStr("TEST"))
            == (VClass(InternalError), VTuple([VStr("Nonesuch"), VStr("TEST")]))
  {
    RuntimeWellFormed();
    assert "Nonesuch" !in Builtins;
    assert "Nonesuch" !in Module;
    UnboundIsNone(Runtime, "Nonesuch");
  }

  /** Whatever string is upgraded, the resulting type is an exception class. */
  lemma UpgradeStringGivesException(t: string, v: Value)
    ensures WellFormed(Runtime.classes)
    ensures IsExceptionClass(Runtime, UpgradeException(Runtime, VStr(t), v).0)
  {
    RuntimeValid();
    UpgradedStringIsException(Runtime, t, v);
  }

  /**
   * A locally defined class that happens to be called NotFound is returned
   * as it is; it is not replaced by zExceptions.NotFound.
   */
  lemma UpgradeKeepsLocalNotFound()
    ensures WellFormed(Runtime.classes)
    ensures Classes[LocalNotFound].name == Classes[NotFound].name
    ensures UpgradeException(Runtime, VClass(LocalNotFound), VStr("TEST"))
            == (VClass(LocalNotFound), VStr("TEST"))
    ensures UpgradeException(Runtime, VClass(LocalNotFound), VStr("TEST")).0 != VClass(NotFound)
  {
    RuntimeWellFormed();
  }
}
