/** The parts of Python's object model that the Try abstraction relies on:
    classes with single inheritance and `issubclass`, exception instances,
    and the two ways a call can end (it returns a value or it raises). */
module Python {

  datatype Option<+T> = None | Some(value: T)

  /** A Python class: `object`, or a class called `name` whose base is `base`.
      Two `Class` values are equal exactly when they stand for the same type
      object, so `==` here models `type(a) is type(b)`. */
  datatype Class = Object | Derived(name: string, base: Class)

  /** The name `type(x)` prints between the quotes of `<class '...'>`. */
  function ClassName(c: Class): string
  {
    match c
    case Object => "object"
    case Derived(name, _) => name
  }

  /** `issubclass(c, k)`: `k` is `c` itself or one of its ancestors. */
  predicate IsSubclass(c: Class, k: Class)
  {
    c == k || (c.Derived? && IsSubclass(c.base, k))
  }

  /** Number of inheritance steps from `c` up to `object`. */
  function Depth(c: Class): nat
  {
    match c
    case Object => 0
    case Derived(_, base) => 1 + Depth(base)
  }

  // The built-in classes that the core and its tests name.
  const BaseException: Class := Derived("BaseException", Object)
  const Exception: Class := Derived("Exception", BaseException)
  const TypeError: Class := Derived("TypeError", Exception)
  const ArithmeticError: Class := Derived("ArithmeticError", Exception)
  const ZeroDivisionError: Class := Derived("ZeroDivisionError", ArithmeticError)
  const LookupError: Class := Derived("LookupError", Exception)
  const IndexError: Class := Derived("IndexError", LookupError)
  const KeyboardInterrupt: Class := Derived("KeyboardInterrupt", BaseException)

  /** One element of an exception's `args` tuple. */
  datatype Arg = IntArg(i: int) | StrArg(s: string)

  /** An instance of class `cls` built with the positional arguments `args`.
      Other state of the instance (traceback, identity, extra attributes)
      is not part of the value. */
  datatype Exn = Exn(cls: Class, args: seq<Arg>)

  /** `isinstance(e, k)`. */
  predicate IsInstance(e: Exn, k: Class)
  {
    IsSubclass(e.cls, k)
  }

  /** `isinstance(e, Exception)`: what a bare `except Exception` catches. */
  predicate IsException(e: Exn)
  {
    IsInstance(e, Exception)
  }

  /** How a Python call ends: by returning `value` or by raising `exn`. */
  datatype Outcome<+T> = Returned(value: T) | Raised(exn: Exn)

  /** Evaluating `k(x)` where `x` is the value of a call that ended with `o`:
      a raise skips `k` and travels on. */
  function AndThen<T, U>(o: Outcome<T>, k: T -> Outcome<U>): (r: Outcome<U>)
    ensures o.Raised? ==> r == Raised(o.exn)
    ensures o.Returned? ==> r == k(o.value)
  {
    match o
    case Returned(x) => k(x)
    case Raised(e) => Raised(e)
  }

  /** Every entry of `classes` derives from `BaseException`, as an `except`
      clause requires of the classes it names. */
  predicate CatchableClasses(classes: seq<Class>)
  {
    forall k :: k in classes ==> IsSubclass(k, BaseException)
  }

  const CannotCatchMessage := "catching classes that do not inherit from BaseException is not allowed"

  /** Python 3's test for `except classes:` when `e` is in flight: the clause
      first rejects, with a `TypeError`, a tuple holding a class that does not
      derive from `BaseException`; otherwise it catches `e` when `e` is an
      instance of one of the classes (a subclass matches too). */
  function ExceptMatches(classes: seq<Class>, e: Exn): (r: Outcome<bool>)
    ensures r.Raised? <==> !CatchableClasses(classes)
    ensures r.Raised? ==> r.exn == NewTypeError(CannotCatchMessage)
    ensures r.Returned? ==> (r.value <==> exists k :: k in classes && IsInstance(e, k))
  {
    if !CatchableClasses(classes) then Raised(NewTypeError(CannotCatchMessage))
    else Returned(exists k :: k in classes && IsInstance(e, k))
  }

  /** `TypeError(msg)`. */
  function NewTypeError(msg: string): (e: Exn)
    ensures IsException(e) && e.cls == TypeError
    ensures e.args == [StrArg(msg)]
  {
    Exn(TypeError, [StrArg(msg)])
  }

  /** `issubclass` is transitive. */
  lemma {:induction false} IsSubclassTransitive(a: Class, b: Class, c: Class)
    requires IsSubclass(a, b) && IsSubclass(b, c)
    ensures IsSubclass(a, c)
  {
    if a != b {
      IsSubclassTransitive(a.base, b, c);
    }
  }

  /** A superclass sits no deeper than its subclass, and at the same depth
      only when it is the class itself. */
  lemma {:induction false} SubclassDepth(a: Class, b: Class)
    requires IsSubclass(a, b)
    ensures Depth(b) <= Depth(a)
    ensures Depth(b) == Depth(a) ==> a == b
  {
    if a != b {
      SubclassDepth(a.base, b);
    }
  }

  /** Python's class graph has no cycles: `issubclass` both ways means the
      same class. */
  lemma IsSubclassAntisymmetric(a: Class, b: Class)
    requires IsSubclass(a, b) && IsSubclass(b, a)
    ensures a == b
  {
    SubclassDepth(a, b);
    SubclassDepth(b, a);
  }

  /** Every `Exception` is also a `BaseException`. */
  lemma ExceptionIsBaseException(e: Exn)
    requires IsException(e)
    ensures IsInstance(e, BaseException)
  {
    IsSubclassTransitive(e.cls, Exception, BaseException);
  }
}
