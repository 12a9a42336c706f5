# zExceptions: legacy exception-name resolution and upgrade

A Dafny model of the two functions in `zExceptions/__init__.py` that turn a
legacy, string-named exception into a real exception class:

- `convertExceptionType(name)` looks the name up in the `builtins` namespace
  and, only when builtins has no such name, among the attributes of the
  `zExceptions` module. It returns the bound object if that object is a
  class deriving from `Exception`, and None otherwise.
- `upgradeException(t, v)` leaves a pair whose `t` is not a string alone. A
  string `t` that resolves is replaced by the class it names. Any other
  string gives `InternalError` with the pair `(t, v)` as the new value.

Python's reflection is modelled as data:

- `PyObjects.Value` is the Python object a namespace binds: None, a string,
  a class, a tuple, or an opaque object such as a function or a module.
- A `Hierarchy` is the table of all classes with their bases. Class ids
  follow creation order, so every base is older than the class deriving
  from it (`WellFormed`).
- `PyObjects.IsSubclass` is `issubclass` over that table.
- A namespace is a `map<string, Value>`.
- `ZExceptions.Env` holds the class table, the two namespaces, and the two
  classes the code names directly: the builtin `Exception` (line 69) and
  the module's `InternalError` (line 89). `Globals` is what the code of
  the module sees as a global name: its own attributes, then builtins.
  `EnvValid` states necessary conditions on the interpreter states an
  `Env` can stand for: the class table is acyclic, and every class a
  namespace binds is in the table. The global `Exception` is
  `env.exception`. The module attribute `InternalError` is
  `env.internalError`, and it derives from `Exception`.

`ZExceptionsRuntime` fills an `Env` with the classes and bindings of an
imported zExceptions under Python 3. It uses a representative part of
builtins and of the module's attributes: its six classes, the imported
`Unauthorized`, `implementer` and interfaces, and its two functions. Its
lemmas replay the package's test cases.

Two points where the code is followed over a looser reading:

- The `elif` at line 65 makes builtins shadow the module strictly. A
  builtin binding that is not an exception class gives None; it does not
  fall through to the module (`BuiltinShadowsModule`).
- The test at tests/test___init__.py:176-183 expects a non-string class
  named `NotFound` to be replaced by `zExceptions.NotFound`. The code at
  lines 78 and 90 returns every non-string `t` unchanged, so that test
  cannot pass against this source. The model follows the code
  (`ZExceptionsRuntime.UpgradeKeepsLocalNotFound`).

On Python 3 `unichr` is no longer a builtin, so the test at
tests/test___init__.py:137-138 gets None because the name is bound nowhere
(`ConvertUnichr`).

## Model

| member | source | states |
|---|---|---|
| PyObjects.IsSubclass | src/zExceptions/__init__.py:69 | `issubclass(c, t)` holds when `t` is `c` or an ancestor through the bases; any such `t` is a class in the table and no younger than `c` |
| PyObjects.SubclassTransitive | src/zExceptions/__init__.py:69 | deriving from a class that derives from `t` is deriving from `t` |
| PyObjects.SubclassAntisymmetric | src/zExceptions/__init__.py:69 | two classes that derive from each other are the same class |
| PyObjects.BaseDerives | src/zExceptions/__init__.py:69 | a class with some base deriving from `t` derives from `t` |
| PyObjects.SingleBaseSubclass | src/zExceptions/__init__.py:69 | with one base, a class derives from `t` exactly when it is `t` or its base derives from `t` |
| PyObjects.RootDerivesOnlyFromItself | src/zExceptions/__init__.py:69 | a class without bases derives from nothing but itself |
| ZExceptions.BoundEntity | src/zExceptions/__init__.py:62-66 | `etype` is the lookup of the name in the module namespace overlaid by builtins (builtins win on a clash), or None when neither binds it |
| ZExceptions.ConvertExceptionType | src/zExceptions/__init__.py:60-70 | the result is None or an exception class; it is not None exactly when the bound object is an exception class, and then it is that object |
| ZExceptions.UpgradeException | src/zExceptions/__init__.py:73-90 | a non-string type passes through with its value; a resolving string becomes its class with the value untouched; any other string becomes `(InternalError, (t, v))`; the result type is never a string |
| ZExceptions.BuiltinExceptionWins | src/zExceptions/__init__.py:63-70 | a name bound in builtins to an exception class resolves to exactly that builtin class |
| ZExceptions.BuiltinShadowsModule | src/zExceptions/__init__.py:63-70 | a builtin binding that is not an exception class gives None, whatever the module binds under that name |
| ZExceptions.ModuleFallback | src/zExceptions/__init__.py:65-70 | a name absent from builtins and bound in the module to an exception class resolves to that class |
| ZExceptions.ModuleNonExceptionIsNone | src/zExceptions/__init__.py:65-70 | a module attribute that is not an exception class gives None |
| ZExceptions.UnboundIsNone | src/zExceptions/__init__.py:62-70 | a name bound in neither namespace gives None |
| ZExceptions.Globals | src/zExceptions/__init__.py:69-89 | a global name is the module's attribute when the module binds it, and otherwise the builtin of that name |
| ZExceptions.ConvertIsOverlayLookup | src/zExceptions/__init__.py:62-70 | resolution equals a lookup in the module namespace overlaid by builtins, followed by the exception-class filter (a corollary of the two contracts above) |
| ZExceptions.SubclassOfExceptionIsAccepted | src/zExceptions/__init__.py:67-69 | a class deriving from an accepted exception class is accepted too |
| ZExceptions.ValidEnvFilterIsSubclassCheck | src/zExceptions/__init__.py:67-69 | in a valid environment every bound class is in the table, so the filter is exactly "is a class and derives from the class the global `Exception` names" |
| ZExceptions.UpgradeIdempotent | src/zExceptions/__init__.py:78-90 | upgrading an upgraded pair returns it unchanged |
| ZExceptions.UpgradeMissInjective | src/zExceptions/__init__.py:87-90 | two unresolvable string pairs upgrade to the same pair only if they are the same pair |
| ZExceptions.UpgradeMissRecoverable | src/zExceptions/__init__.py:87-90 | after a miss the new value is the 2-tuple of the original name and the original value |
| ZExceptions.UpgradeMissCollides | src/zExceptions/__init__.py:87-90 | a miss gives the same pair as an `InternalError` raised with that tuple as its value, so upgrading is not injective overall |
| ZExceptions.ValidMissIsModuleInternalError | src/zExceptions/__init__.py:87-89 | in a valid environment a miss gives the class the module binds to `InternalError`, which is an exception class, with `(t, v)` as the value |
| ZExceptions.UpgradedStringIsException | src/zExceptions/__init__.py:84-89 | when `InternalError` derives from `Exception`, every type produced from a string is an exception class |
| ZExceptionsRuntime.RuntimeWellFormed | src/zExceptions/__init__.py:32-57 | the classes of the runtime table were all created after their bases |
| ZExceptionsRuntime.RuntimeBindsKnownClasses | src/zExceptions/__init__.py:21-57 | every class the runtime builtins or module namespace binds is in the class table |
| ZExceptionsRuntime.RuntimeGlobals | src/zExceptions/__init__.py:69-89 | the global `Exception` is the builtin class, since the module does not rebind it, and the module attribute `InternalError` is the class of line 38 |
| ZExceptionsRuntime.RuntimeValid | src/zExceptions/__init__.py:25-57 | the runtime environment meets every condition of `EnvValid` |
| ZExceptionsRuntime.ConvertSyntaxError | src/zExceptions/tests/test___init__.py:134-135 | `'SyntaxError'` resolves to the builtin `SyntaxError` |
| ZExceptionsRuntime.ConvertUnichr | src/zExceptions/tests/test___init__.py:137-138 | `'unichr'` gives None |
| ZExceptionsRuntime.ConvertBuiltinNonClass | src/zExceptions/__init__.py:63-70 | the builtin function `len` and the builtin `None` give None |
| ZExceptionsRuntime.ConvertBuiltinPlainClass | src/zExceptions/__init__.py:67-69 | the builtin class `int` gives None |
| ZExceptionsRuntime.ConvertKeyboardInterrupt | src/zExceptions/__init__.py:69 | `KeyboardInterrupt`, which derives from `BaseException` but not `Exception`, gives None |
| ZExceptionsRuntime.ConvertDeepSubclass | src/zExceptions/__init__.py:69 | `DeprecationWarning`, two levels below `Exception`, resolves to itself |
| ZExceptionsRuntime.ConvertAlias | src/zExceptions/__init__.py:63-64 | the alias `EnvironmentError` resolves to the class `OSError` it is bound to |
| ZExceptionsRuntime.ConvertRedirect | src/zExceptions/tests/test___init__.py:140-142 | `'Redirect'` resolves to the module's `Redirect` |
| ZExceptionsRuntime.ModuleClassResolves | src/zExceptions/__init__.py:32-57 | each module class deriving directly from `Exception` under a name builtins lacks resolves to itself |
| ZExceptionsRuntime.ConvertModuleFunction | src/zExceptions/tests/test___init__.py:144-145 | `'convertExceptionType'` gives None |
| ZExceptionsRuntime.ConvertModuleInterface | src/zExceptions/__init__.py:23 | the imported interface `INotFound` gives None |
| ZExceptionsRuntime.ConvertModuleNonExceptionClass | src/zExceptions/__init__.py:21 | the imported class `implementer`, which does not derive from `Exception`, gives None |
| ZExceptionsRuntime.UpgradeNonString | src/zExceptions/tests/test___init__.py:154-157 | `(SyntaxError, 'TEST')` comes back unchanged |
| ZExceptionsRuntime.UpgradeBuiltinName | src/zExceptions/tests/test___init__.py:159-162 | `('SyntaxError', 'TEST')` becomes `(SyntaxError, 'TEST')` |
| ZExceptionsRuntime.UpgradeModuleName | src/zExceptions/tests/test___init__.py:164-168 | `('Redirect', 'http://example.com/')` becomes `(Redirect, 'http://example.com/')` |
| ZExceptionsRuntime.UpgradeUnknownName | src/zExceptions/tests/test___init__.py:170-174 | `('Nonesuch', 'TEST')` becomes `(InternalError, ('Nonesuch', 'TEST'))` |
| ZExceptionsRuntime.UpgradeStringGivesException | src/zExceptions/__init__.py:84-89 | in the runtime, upgrading any string gives an exception class as the type |
| ZExceptionsRuntime.UpgradeKeepsLocalNotFound | src/zExceptions/__init__.py:78-90 | a local class named `NotFound` comes back as itself, not as `zExceptions.NotFound` |

## Left out

- The DeprecationWarning at lines 79-82 is dropped. The model assumes the default warnings filters. Under an "error" filter (`-W error::DeprecationWarning`), every string `t` raises DeprecationWarning at line 79 instead of returning, while `UpgradeException` always returns.
- The interface declarations (`@implementer`) at lines 32-49: metadata with no behaviour here.
- The HTTP exception taxonomy, status-reason table and response rendering that the tests at tests/test___init__.py:4-125 exercise: no such code is in `zExceptions/__init__.py`.
- `zExceptions/unauthorized.py` is not part of this model; `Unauthorized` is taken to be a class deriving directly from `Exception`.
- `issubclass` hooks: metaclass `__subclasscheck__`, ABC registration and Python 2 old-style classes. `IsSubclass` is reachability through the declared bases.
- String types: `string_types` is modelled as text strings only (`VStr`). Python 2 `unicode` versus `str`, and byte strings, are not told apart.
- Dynamic module attributes: a module-level `__getattr__` or rebinding of the module's globals at run time. `Env` fixes the `Exception` and `InternalError` that the code names when the module is imported.
- `ZExceptionsRuntime` lists a representative part of Python 3 builtins, not all of them. Its module namespace is also a representative part: it leaves out the submodules `_compat` and `unauthorized`, `__doc__`, `__file__`, `__builtins__` and the attributes every module object has, such as `__class__`. None of these is an exception class, so no resolution result differs.
- ConvertExceptionType: takes only string names. `convertExceptionType` accepts any object: an unhashable name raises TypeError at line 63 (`name in builtins.__dict__`), and a hashable non-string name absent from builtins raises TypeError at line 65 (`hasattr` needs a string). `upgradeException`, the only caller here, passes strings only.
- `setup.py`: packaging metadata only.
