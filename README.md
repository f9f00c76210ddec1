# tryingsnake: a Dafny model of the Try abstraction

`tryingsnake` gives Python a Scala-style `Try`. A value is either `Success(v)` or
`Failure(e)`, and `e` must be an `Exception` instance. `Try(f, *args, **kwargs)`
calls `f` and boxes what it returns, or what it raises, into one of the two
variants. The exception classes in the process-wide registry `Try_._unhandled`
are the exception: `Try` re-raises them instead of boxing them. The combinators
`map`, `flatMap`, `filter`, `recover`, `recoverWith`, `get`, `getOrElse`,
`orElse` and `failed` build on that call. `Failure` values are compared by the
exact type and the `args` of their exceptions.

The project has four modules:

- `Python` (`python.dfy`) covers what the core needs from Python itself:
  - classes with single inheritance (`Class = Object | Derived(name, base)`);
  - `issubclass` and `isinstance`, with `issubclass` proved a partial order;
  - exception instances, `Exn(cls, args)`;
  - `Outcome = Returned(value) | Raised(exn)`, which says how a call ends;
  - how `except <tuple of classes>` decides whether to catch.
- `TryingSnake` (`trying_snake.dfy`) holds the core:
  - `Try<T> = Success(v) | Failure(e)`;
  - `Obj<T>`, for the places where the source accepts any Python object;
  - the construction guards and the capturing call `Capture`;
  - the `Registry` class, with its field `unhandled`, the `SetUnhandled`
    method and a `Call` method that reads the field;
  - every combinator, `==` and `!=`.
- `TryingSnakeLaws` (`laws.dfy`) proves properties that relate several
  operations:
  - the functor laws, the right identity of `flatMap`, `map` as `flatMap`
    of `Success`, and a counterexample to the associativity of `flatMap`;
  - `get` and capture undoing each other;
  - registry matching by inheritance;
  - `Failure` equality being exact-type equality.
- `TryingSnakeDoctests` (`doctests.dfy`) states the docstring examples and a
  selection of the unit tests as lemmas and a method.

How the Python code becomes Dafny:

- An operation that can raise returns an `Outcome`. `Raised(e)` means `e`
  propagates to the caller.
- A user callable becomes a Dafny function from its argument to the `Outcome`
  of calling it. Positional and keyword arguments together form one argument
  value.
- The pure functions take the registry's current tuple as the parameter
  `unhandled`. `Registry.Call` is the same capture, reading the field.

Where the code and its tests or description disagree, the model follows the
code:

- `failed()` always raises. A `Success` raises `TypeError("Cannot fail
  Success")`. A `Failure` re-raises its exception through `get()`. The
  docstring agrees. The tests at `tryingsnake/test/test_try.py:112-118` expect
  a returned `Try` instead.
- `_raise_if_not_exception` returns `True`. The test at
  `tryingsnake/test/test_try.py:122` expects `None`.
- `recoverWith` applies `f` to the held exception, as the code at line 318
  does. Its docstring says "apply f to self".
- `set_unhandled` takes an iterable of classes. `Try` matches with
  `isinstance`, so a subclass of a registered class is re-raised too.

## Model

| member | source | states |
|---|---|---|
| `Python.IsSubclassTransitive` | tryingsnake/__init__.py:341 | `issubclass` is transitive. The registry clause relies on this to match a class registered several levels up. |
| `Python.IsSubclassAntisymmetric` | tryingsnake/__init__.py:291-293 | `issubclass` in both directions means the same class, because the class graph has no cycles. |
| `Python.ExceptionIsBaseException` | tryingsnake/__init__.py:341 | Every `Exception` instance is also a `BaseException` instance, so any `Exception` class is a valid entry of the `except` tuple. |
| `Python.ExceptMatches` | tryingsnake/__init__.py:341 | `except unhandled` raises `TypeError` when some registered class does not derive from `BaseException`. Otherwise it catches exactly the instances of a registered class, subclasses included. |
| `TryingSnake.IsSuccess` | tryingsnake/__init__.py:206-215 | `isSuccess` holds exactly for `Success`. |
| `TryingSnake.IsFailure` | tryingsnake/__init__.py:195-215 | `isFailure` is the negation of `isSuccess` and holds exactly for `Failure`. |
| `TryingSnake.Len` | tryingsnake/__init__.py:224-226 | Truthiness: `__len__` is 1 for a `Success` and 0 for a `Failure` (the `Failure` version is at line 273). |
| `TryingSnake.RaiseIfNotException` | tryingsnake/__init__.py:35-39 | Returns `True` exactly for `Exception` instances. Anything else raises `TypeError("Invalid type for Failure: <class ...>")`. |
| `TryingSnake.NewFailure` | tryingsnake/__init__.py:276-278 | `Failure(o)` succeeds exactly when `o` is an `Exception` instance and gives a valid `Failure` holding it. Otherwise it raises the guard's `TypeError`. |
| `TryingSnake.IdentityIfTryOrRaise` | tryingsnake/__init__.py:29-33 | A `Try` is returned unchanged. Any other object raises `TypeError("Invalid return type for f: <class ...>")`. |
| `TryingSnake.Capture` | tryingsnake/__init__.py:324-344 | `Try(f, a)`: a return becomes `Success`. A raise is boxed as `Failure` exactly when it is an `Exception` not matched by the registry. A matched exception is re-raised unchanged. A non-`Exception` always propagates. An uncatchable registry entry raises `TypeError`. Every boxed result is valid. |
| `TryingSnake.Registry.constructor` | tryingsnake/__init__.py:7 | The registry starts empty. |
| `TryingSnake.Registry.SetUnhandled` | tryingsnake/__init__.py:10-27 | The registry becomes exactly the given classes, or empty when none are given. |
| `TryingSnake.Registry.Call` | tryingsnake/__init__.py:339-344 | A `Try` call against the registry's current contents behaves as `Capture` with those contents. |
| `TryingSnake.Map` | tryingsnake/__init__.py:97-112 | A `Failure` is returned unchanged (the override is at line 306). On `Success(v)` the result is `Try(f, v)`. Validity is preserved. |
| `TryingSnake.FlatMap` | tryingsnake/__init__.py:114-129 | A `Failure` is returned unchanged. On `Success(v)`, a `Try` returned by `f` is the result. A non-`Try` return raises `TypeError` un-boxed. A raise from `f` is boxed as that `Failure`, or propagates as `Try` would propagate it. |
| `TryingSnake.FilterMessage` | tryingsnake/__init__.py:254 | The message is `msg` when it is given and non-empty, otherwise `repr(f)`. |
| `TryingSnake.Filter` | tryingsnake/__init__.py:252-254 | On `Success`, a true predicate keeps `self`. A false predicate gives `Failure(exception_cls(message))`. When the class is not an `Exception` class it raises exactly `TypeError("Invalid type for Failure: <class '...'>")` naming that class. A raising predicate propagates whatever the registry holds. A `Failure` is returned unchanged (line 312). |
| `TryingSnake.Recover` | tryingsnake/__init__.py:314-315 | On `Failure(e)` the result is `Try(f, e)`. A `Success` is returned unchanged (line 257). Validity is preserved. |
| `TryingSnake.RecoverWith` | tryingsnake/__init__.py:317-318 | On `Failure(e)` the `flatMap` rules apply with `f(e)`: a returned `Try` is the result, a non-`Try` raises `TypeError`, a raise is boxed or propagates. A `Success` is returned unchanged (line 260). |
| `TryingSnake.Get` | tryingsnake/__init__.py:296-297 | Returns the value of a `Success` (line 244). A `Failure` raises exactly its exception. |
| `TryingSnake.GetOrElse` | tryingsnake/__init__.py:246-247 | Never raises. It returns what `get` returns, or `default` where `get` would raise (line 300). |
| `TryingSnake.OrElse` | tryingsnake/__init__.py:302-303 | On a `Failure`, a `Try` default is returned and anything else raises `TypeError`. A `Success` is returned unchanged (line 250). |
| `TryingSnake.Failed` | tryingsnake/__init__.py:320-321 | Never returns. A `Failure` re-raises its exception, and a `Success` raises `TypeError("Cannot fail Success")` (line 263). |
| `TryingSnake.Eq` | tryingsnake/__init__.py:280-294 | `==` holds exactly when the other object is the same `Try`. For a `Failure` that means the same exact exception class and equal `args`. It is false against any non-`Try`. |
| `TryingSnake.Ne` | tryingsnake/__init__.py:44-49 | `!=` is exactly the negation of `==`. |
| `TryingSnakeLaws.MapIdentity` | tryingsnake/__init__.py:112 | Mapping a function that returns its argument gives back the same `Try`. |
| `TryingSnakeLaws.MapFusion` | tryingsnake/__init__.py:97-112 | `t.map(f).map(g)` equals `t.map(lambda x: g(f(x)))` for every registry, including when `f` or `g` raises. |
| `TryingSnakeLaws.FlatMapRightIdentity` | tryingsnake/__init__.py:128-129 | `t.flatMap(lambda x: Success(x))` equals `t`. |
| `TryingSnakeLaws.FlatMapNotAssociative` | tryingsnake/__init__.py:128-129 | `Success(v).flatMap(lambda x: Success(x)).flatMap(lambda y: y)` raises the `TypeError` for a non-`Try` result. Nesting the second `flatMap` inside the first boxes that same `TypeError` as a `Failure`, for every registry that does not match `TypeError`. |
| `TryingSnakeLaws.MapIsFlatMapOfSuccess` | tryingsnake/__init__.py:112-129 | `map(f)` equals `flatMap` of `f` with its result wrapped in `Success`. |
| `TryingSnakeLaws.RecoverMirrorsMap` | tryingsnake/__init__.py:314-318 | On a `Failure(e)`, `recover` is `map` and `recoverWith` is `flatMap`, each over a `Success` holding `e`. |
| `TryingSnakeLaws.RecoverBoxesRaisingFunction` | tryingsnake/__init__.py:314-315 | If the recovering function raises an unregistered `Exception`, the result is a `Failure` holding it instead of a propagated exception. |
| `TryingSnakeLaws.GetUndoesCapture` | tryingsnake/__init__.py:339-344 | Calling `get()` on the `Try` that `Try(f, a)` boxed ends the way `f(a)` ended. |
| `TryingSnakeLaws.CaptureUndoesGet` | tryingsnake/__init__.py:296-297 | With an empty registry, `Try(t.get)` rebuilds every valid `t`. |
| `TryingSnakeLaws.SubclassOfUnhandledIsRethrown` | tryingsnake/__init__.py:341-342 | An exception of any class below a registered class, however deep, is re-raised. |
| `TryingSnakeLaws.RegisteringOwnClassRethrows` | tryingsnake/__init__.py:341-342 | Once the class of a raised `Exception` is registered, `Try` re-raises that exception unchanged. |
| `TryingSnakeLaws.EmptyRegistryBoxesExceptions` | tryingsnake/__init__.py:7 | With the empty registry, a raise is boxed exactly when it is an `Exception` instance. |
| `TryingSnakeLaws.RegisteringExceptionBoxesNothing` | tryingsnake/__init__.py:341-344 | With `Exception` registered, `Try` gives back a value only when `f` returned. |
| `TryingSnakeLaws.RegistryOrderIrrelevant` | tryingsnake/__init__.py:27 | Only the set of registered classes matters, not their order or duplicates. |
| `TryingSnakeLaws.FailureEqIsMutualSubclass` | tryingsnake/__init__.py:289-294 | `Failure` equality holds exactly when each exception's class is a subclass of the other's and the `args` are equal. |
| `TryingSnakeLaws.SubclassFailuresDiffer` | tryingsnake/test/test_try.py:139 | `TypeError("e")` is an `Exception` instance, yet `Failure(TypeError("e")) != Failure(Exception("e"))`. |
| `TryingSnakeLaws.EqIsEquivalence` | tryingsnake/__init__.py:231-294 | `==` between `Try` values is reflexive, symmetric and transitive. |
| `TryingSnakeDoctests.TryDoctest` | tryingsnake/__init__.py:333-337 | `Try(truediv, 1, 0)` is a `Failure` holding a `ZeroDivisionError`, and `Try(add, 1, 2)` is `Success(3)`. It also states `Try(truediv, 4, 2)` is `Success(2)`, from the test at `tryingsnake/test/test_try.py:26`. |
| `TryingSnakeDoctests.InspectionDoctest` | tryingsnake/__init__.py:196-215 | The `isSuccess` and `isFailure` examples: `Success(1)` is a success and no failure, and `Failure(Exception())` is a failure and no success. |
| `TryingSnakeDoctests.SetUnhandledDoctest` | tryingsnake/__init__.py:15-25 | `getitem([], 0)` is boxed by default, re-raised with `IndexError` registered, and boxed again after `set_unhandled()`. |
| `TryingSnakeDoctests.RegistryMatchesSubclasses` | tryingsnake/__init__.py:341-342 | With the superclass `LookupError` registered, the `IndexError` of `getitem([7], 3)` is re-raised. |
| `TryingSnakeDoctests.KeyboardInterruptPropagates` | tryingsnake/__init__.py:343-344 | A `KeyboardInterrupt` is not boxed and propagates. |
| `TryingSnakeDoctests.FailureRefusesBaseException` | tryingsnake/__init__.py:36-38 | `Failure(KeyboardInterrupt())` raises `TypeError`. |
| `TryingSnakeDoctests.FailureRefusesInt` | tryingsnake/test/test_try.py:18-19 | `Failure(1)` raises `TypeError("Invalid type for Failure: <class 'int'>")`. |
| `TryingSnakeDoctests.MapDoctest` | tryingsnake/__init__.py:103-110 | The examples in the `map` docstring. |
| `TryingSnakeDoctests.FlatMapDoctest` | tryingsnake/__init__.py:120-126 | All three examples in the `flatMap` docstring: `Try(add, x, 1)` gives `Success(2)`, a `Failure` is kept, and `Try(add, x, "0")` gives the `Failure` holding its `TypeError`. Also a non-`Try` result raises `TypeError`. |
| `TryingSnakeDoctests.FilterDoctest` | tryingsnake/__init__.py:139-144 | All three examples in the `filter` docstring: a true predicate keeps `Success(1)`, a false one gives `Failure(Exception("Greater than zero"))`, and a `Failure` is kept. Also a custom exception class, and an empty `msg` falling back to `repr(f)`. |
| `TryingSnakeDoctests.RecoverDoctest` | tryingsnake/__init__.py:154-174 | All examples in the `recover` and `recoverWith` docstrings: `Success(1)` is kept by both, recovering gives `Success(0)`, and a recovering function raising `Exception("e")` gives that `Failure`. Also a non-`Try` result of `recoverWith` raises `TypeError`. |
| `TryingSnakeDoctests.ExtractorDoctest` | tryingsnake/__init__.py:60-191 | The examples for `get`, `getOrElse` and `orElse`, and `failed` raising in both variants. |
| `TryingSnakeDoctests.EqualityDoctest` | tryingsnake/test/test_try.py:131-140 | The equality tests: equal values, different `args`, different exact types, and comparisons across variants and with non-`Try` values. |

## Left out

- `__repr__` (`tryingsnake/__init__.py:51-52`): it depends on Python's `repr` of arbitrary payloads. Only `filter` needs `repr(f)`, and it takes that as the string parameter `predicateRepr`.
- Hashing: the source defines no `__hash__`, and the hash tests are not backed by its code.
- `tryingsnake/curried.py`: it only forwards its arguments to `Try`. It is not part of this model.
- Evaluation of user callables: each one is a function from its argument to an `Outcome`. Argument passing (`*args`, `**kwargs`) and side effects of the callable are not modelled.
- Thread safety of the global registry: the model is single-threaded.
- Class identity is modelled as structural equality of name and base chain, so two distinct classes with the same name and base are not told apart. Multiple inheritance is not modelled.
- Exception `args` hold only integers and strings. An exception's traceback, identity and other attributes are not part of the value, which matches what `Failure` equality looks at.
- The types of plain payloads are abstract. `Success` equality uses Dafny equality on the payload type in place of the payload's own `__eq__`. A plain object carries only the type name that error messages print.
- The `msg` parameters of `_identity_if_try_or_raise` and `_raise_if_not_exception` are not modelled: no caller passes one, and the model uses the defaults.
- Registry entries are classes. A registry holding non-class objects is not modelled.
- `filter` arguments: `exception_cls` is a class whose constructor takes the message as its only argument. The truth value of the predicate's result is taken as given; a raising `__bool__` is not modelled.
- Generator-call tests (`tryingsnake/test/test_try.py:171-188`): they depend on how Python calls generator objects.
- `Try_.__init__` raising `NotImplementedError`: the datatype has only the two variants, so there is no base instance to construct.
