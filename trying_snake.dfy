/** The Try abstraction of `tryingsnake/__init__.py`: the two variants, the
    capturing call `Try(f, *args, **kwargs)`, the process-wide registry of
    unhandled exception classes, and the combinators.

    Every operation that can raise returns an `Outcome`: `Returned(x)` when it
    returns `x`, `Raised(e)` when `e` propagates to its caller. A user
    callable is a Dafny function from its argument to the `Outcome` of
    calling it. The registry's current contents are passed as `unhandled`
    to each operation that reads them. */
module TryingSnake {
  import opened Python

  /** `Success(v)` or `Failure(e)`. The `Failure` constructor of the source
      admits only `Exception` instances; `Valid` says so of a value. */
  datatype Try<T> = Success(v: T) | Failure(e: Exn)

  /** Any Python object that can be handed to the core where it accepts an
      arbitrary value: a `Try`, an exception instance, or some other value
      `x` whose type prints as `typeName`. */
  datatype Obj<T> = Plain(x: T, typeName: string) | ExnObj(exn: Exn) | TryObj(t: Try<T>)

  /** What the source's constructors guarantee of every `Try`. */
  predicate Valid<T>(t: Try<T>)
  {
    t.Failure? ==> IsException(t.e)
  }

  /** `str(type(o))`. */
  function TypeRepr<T>(o: Obj<T>): string
  {
    match o
    case Plain(_, typeName) => "<class '" + typeName + "'>"
    case ExnObj(e) => "<class '" + ClassName(e.cls) + "'>"
    case TryObj(Success(_)) => "<class 'tryingsnake.Success'>"
    case TryObj(Failure(_)) => "<class 'tryingsnake.Failure'>"
  }

  const InvalidReturnType := "Invalid return type for f: "
  const InvalidFailureType := "Invalid type for Failure: "
  const CannotFailSuccess := "Cannot fail Success"

  // ---------------------------------------------------------------------
  // Inspection

  /** `isSuccess`. */
  predicate IsSuccess<T>(t: Try<T>)
    ensures IsSuccess(t) <==> t.Success?
  {
    t.Success?
  }

  /** `isFailure`: the negation of `isSuccess`. */
  predicate IsFailure<T>(t: Try<T>)
    ensures IsFailure(t) <==> t.Failure?
  {
    !IsSuccess(t)
  }

  /** `__len__`, which decides truthiness: a `Success` is truthy, a
      `Failure` is not. */
  function Len<T>(t: Try<T>): (n: nat)
    ensures n <= 1
    ensures n == 1 <==> IsSuccess(t)
    ensures n == 0 <==> IsFailure(t)
  {
    match t
    case Success(_) => 1
    case Failure(_) => 0
  }

  // ---------------------------------------------------------------------
  // Construction guards

  /** `Try_._raise_if_not_exception(e)`: returns `True` for an `Exception`
      instance and raises `TypeError` naming the type of anything else. */
  function RaiseIfNotException<T>(o: Obj<T>): (r: Outcome<bool>)
    ensures r.Returned? <==> o.ExnObj? && IsException(o.exn)
    ensures r.Returned? ==> r.value
    ensures r.Raised? ==> r.exn == NewTypeError(InvalidFailureType + TypeRepr(o))
  {
    if o.ExnObj? && IsException(o.exn) then Returned(true)
    else Raised(NewTypeError(InvalidFailureType + TypeRepr(o)))
  }

  /** The constructor call `Failure(o)`. */
  function NewFailure<T>(o: Obj<T>): (r: Outcome<Try<T>>)
    ensures r.Returned? <==> o.ExnObj? && IsException(o.exn)
    ensures r.Returned? ==> r.value == Failure(o.exn) && Valid(r.value)
    ensures r.Raised? ==> r.exn == NewTypeError(InvalidFailureType + TypeRepr(o))
  {
    match RaiseIfNotException(o)
    case Raised(te) => Raised(te)
    case Returned(_) => Returned(Failure(o.exn))
  }

  /** `Try_._identity_if_try_or_raise(o)`: a `Try` passes through, anything
      else raises `TypeError` naming its type. */
  function IdentityIfTryOrRaise<T>(o: Obj<T>): (r: Outcome<Try<T>>)
    ensures r.Returned? <==> o.TryObj?
    ensures o.TryObj? ==> r.value == o.t
    ensures r.Raised? ==> r.exn == NewTypeError(InvalidReturnType + TypeRepr(o))
  {
    match o
    case TryObj(t) => Returned(t)
    case _ => Raised(NewTypeError(InvalidReturnType + TypeRepr(o)))
  }

  // ---------------------------------------------------------------------
  // The capturing call

  /** `Try(f, a)` with the registry holding `unhandled`: a return becomes a
      `Success`; a raised exception is first offered to
      `except unhandled` (re-raised when it matches, a subclass included),
      then to `except Exception` (boxed as a `Failure`); whatever neither
      clause takes propagates. */
  function Capture<A, T>(unhandled: seq<Class>, f: A -> Outcome<T>, a: A): (r: Outcome<Try<T>>)
    ensures f(a).Returned? ==> r == Returned(Success(f(a).value))
    ensures f(a).Raised? && CatchableClasses(unhandled) ==>
              (r == Returned(Failure(f(a).exn)) <==>
                 IsException(f(a).exn) && !(exists k :: k in unhandled && IsInstance(f(a).exn, k)))
    ensures f(a).Raised? && CatchableClasses(unhandled) && r.Raised? ==> r.exn == f(a).exn
    ensures f(a).Raised? && CatchableClasses(unhandled) && (exists k :: k in unhandled && IsInstance(f(a).exn, k)) ==>
              r == Raised(f(a).exn)
    ensures f(a).Raised? && !CatchableClasses(unhandled) ==> r == Raised(NewTypeError(CannotCatchMessage))
    ensures f(a).Raised? && !IsException(f(a).exn) ==> r.Raised?
    ensures r.Returned? ==> Valid(r.value)
  {
    match f(a)
    case Returned(x) => Returned(Success(x))
    case Raised(e) =>
      match ExceptMatches(unhandled, e)
      case Raised(te) => Raised(te)
      case Returned(true) => Raised(e)
      case Returned(false) => if IsException(e) then Returned(Failure(e)) else Raised(e)
  }

  /** The class-level registry `Try_._unhandled`, read by every capturing call. */
  class Registry {
    var unhandled: seq<Class>

    /** The registry starts as the empty tuple. */
    constructor ()
      ensures unhandled == []
    {
      unhandled := [];
    }

    /** `Try_.set_unhandled(es)`: the registry becomes exactly `es`, or the
        empty tuple when no argument (or `None`) is given. */
    method SetUnhandled(es: Option<seq<Class>>)
      modifies this
      ensures unhandled == if es.Some? then es.value else []
    {
      unhandled := if es.Some? then es.value else [];
    }

    /** `Try(f, a)` against the registry's current contents. */
    method Call<A, T>(f: A -> Outcome<T>, a: A) returns (r: Outcome<Try<T>>)
      ensures r == Capture(unhandled, f, a)
      ensures r.Returned? ==> Valid(r.value)
    {
      r := Capture(unhandled, f, a);
    }
  }

  // ---------------------------------------------------------------------
  // Combinators

  /** `t.map(f)`: a `Failure` is returned unchanged; on `Success(v)` it is
      `Try(f, v)`, so an exception `f` raises is boxed like any other. */
  function Map<T, U>(unhandled: seq<Class>, t: Try<T>, f: T -> Outcome<U>): (r: Outcome<Try<U>>)
    ensures t.Failure? ==> r == Returned(Failure(t.e))
    ensures t.Success? ==> r == Capture(unhandled, f, t.v)
    ensures Valid(t) && r.Returned? ==> Valid(r.value)
  {
    match t
    case Success(v) => Capture(unhandled, f, v)
    case Failure(e) => Returned(Failure(e))
  }

  /** `t.flatMap(f)`: a `Failure` is returned unchanged; on `Success(v)`,
      `f(v)` runs through `Try`; a captured exception gives that `Failure`,
      a returned `Try` is the result, and any other return value is a
      contract violation that raises `TypeError` outside of any capture. */
  function FlatMap<T, U>(unhandled: seq<Class>, t: Try<T>, f: T -> Outcome<Obj<U>>): (r: Outcome<Try<U>>)
    ensures t.Failure? ==> r == Returned(Failure(t.e))
    ensures t.Success? && f(t.v).Returned? && f(t.v).value.TryObj? ==> r == Returned(f(t.v).value.t)
    ensures t.Success? && f(t.v).Returned? && !f(t.v).value.TryObj? ==>
              r == Raised(NewTypeError(InvalidReturnType + TypeRepr(f(t.v).value)))
    ensures t.Success? && f(t.v).Raised? ==>
              match Capture(unhandled, f, t.v)
              case Returned(c) => r == Returned(Failure(f(t.v).exn))
              case Raised(x) => r == Raised(x)
  {
    match t
    case Failure(e) => Returned(Failure(e))
    case Success(v) =>
      match Capture(unhandled, f, v)
      case Raised(x) => Raised(x)
      case Returned(Failure(e)) => IdentityIfTryOrRaise(TryObj(Failure(e)))
      case Returned(Success(o)) => IdentityIfTryOrRaise(o)
  }

  /** The message of the exception `filter` builds: `msg` when it is truthy
      (given and non-empty), otherwise `repr(f)`. */
  function FilterMessage(msg: Option<string>, predicateRepr: string): (m: string)
    ensures msg.Some? && msg.value != "" ==> m == msg.value
    ensures msg.None? || msg.value == "" ==> m == predicateRepr
  {
    if msg.Some? && msg.value != "" then msg.value else predicateRepr
  }

  /** `t.filter(p, exceptionCls, msg)` (the source's defaults are
      `Exception` and `None`). A `Failure` is returned unchanged. On
      `Success(v)` the predicate is called directly, not through `Try`, so an
      exception it raises propagates whatever the registry holds; a truthy
      answer keeps `t`; a falsy one gives
      `Failure(exceptionCls(FilterMessage(msg, repr(p))))`, which itself
      raises `TypeError` when `exceptionCls` does not derive from
      `Exception`. */
  function Filter<T>(t: Try<T>, p: T -> Outcome<bool>, predicateRepr: string,
                     exceptionCls: Class, msg: Option<string>): (r: Outcome<Try<T>>)
    ensures t.Failure? ==> r == Returned(t)
    ensures t.Success? && p(t.v) == Returned(true) ==> r == Returned(t)
    ensures t.Success? && p(t.v).Raised? ==> r == Raised(p(t.v).exn)
    ensures t.Success? && p(t.v) == Returned(false) ==>
              if IsSubclass(exceptionCls, Exception)
              then r == Returned(Failure(Exn(exceptionCls, [StrArg(FilterMessage(msg, predicateRepr))])))
              else r == Raised(NewTypeError(InvalidFailureType + ("<class '" + ClassName(exceptionCls) + "'>")))
    ensures Valid(t) && r.Returned? ==> Valid(r.value)
  {
    match t
    case Failure(_) => Returned(t)
    case Success(v) =>
      match p(v)
      case Raised(x) => Raised(x)
      case Returned(true) => Returned(t)
      case Returned(false) =>
        NewFailure(ExnObj(Exn(exceptionCls, [StrArg(FilterMessage(msg, predicateRepr))])))
  }

  /** `t.recover(f)`: a `Success` is returned unchanged; on `Failure(e)` it
      is `Try(f, e)`, so a raising `f` gives a `Failure` instead of
      propagating. */
  function Recover<T>(unhandled: seq<Class>, t: Try<T>, f: Exn -> Outcome<T>): (r: Outcome<Try<T>>)
    ensures t.Success? ==> r == Returned(t)
    ensures t.Failure? ==> r == Capture(unhandled, f, t.e)
    ensures Valid(t) && r.Returned? ==> Valid(r.value)
  {
    match t
    case Success(_) => Returned(t)
    case Failure(e) => Map(unhandled, Success(e), f)
  }

  /** `t.recoverWith(f)`: a `Success` is returned unchanged; on `Failure(e)`
      it follows the `flatMap` rules with `f` applied to `e`. */
  function RecoverWith<T>(unhandled: seq<Class>, t: Try<T>, f: Exn -> Outcome<Obj<T>>): (r: Outcome<Try<T>>)
    ensures t.Success? ==> r == Returned(t)
    ensures t.Failure? && f(t.e).Returned? && f(t.e).value.TryObj? ==> r == Returned(f(t.e).value.t)
    ensures t.Failure? && f(t.e).Returned? && !f(t.e).value.TryObj? ==>
              r == Raised(NewTypeError(InvalidReturnType + TypeRepr(f(t.e).value)))
    ensures t.Failure? && f(t.e).Raised? ==>
              match Capture(unhandled, f, t.e)
              case Returned(c) => r == Returned(Failure(f(t.e).exn))
              case Raised(x) => r == Raised(x)
  {
    match t
    case Success(_) => Returned(t)
    case Failure(e) => FlatMap(unhandled, Success(e), f)
  }

  /** `t.get()`: the value of a `Success`; a `Failure` raises the exception
      it holds. */
  function Get<T>(t: Try<T>): (r: Outcome<T>)
    ensures r.Returned? <==> t.Success?
    ensures r.Returned? ==> r.value == t.v
    ensures r.Raised? ==> r.exn == t.e
  {
    match t
    case Success(v) => Returned(v)
    case Failure(e) => Raised(e)
  }

  /** `t.getOrElse(default)`: never raises; the value of a `Success`,
      otherwise `default`. */
  function GetOrElse<T>(t: Try<T>, default: T): (r: T)
    ensures Get(t).Returned? ==> r == Get(t).value
    ensures Get(t).Raised? ==> r == default
  {
    match t
    case Success(_) => Get(t).value
    case Failure(_) => default
  }

  /** `t.orElse(default)`: a `Success` is returned unchanged; a `Failure`
      gives `default` when that is a `Try` and raises `TypeError`
      otherwise. */
  function OrElse<T>(t: Try<T>, default: Obj<T>): (r: Outcome<Try<T>>)
    ensures t.Success? ==> r == Returned(t)
    ensures t.Failure? ==> (r.Returned? <==> default.TryObj?)
    ensures t.Failure? && default.TryObj? ==> r.value == default.t
    ensures t.Failure? && r.Raised? ==> r.exn == NewTypeError(InvalidReturnType + TypeRepr(default))
  {
    match t
    case Success(_) => Returned(t)
    case Failure(_) => IdentityIfTryOrRaise(default)
  }

  /** `t.failed()`: it never returns. A `Success` raises
      `TypeError("Cannot fail Success")`; a `Failure` re-raises its
      exception through `get`. */
  function Failed<T>(t: Try<T>): (r: Outcome<T>)
    ensures r.Raised?
    ensures t.Success? ==> r.exn == NewTypeError(CannotFailSuccess)
    ensures t.Failure? ==> r.exn == t.e
  {
    match t
    case Success(_) => Raised(NewTypeError(CannotFailSuccess))
    case Failure(_) => Get(t)
  }

  // ---------------------------------------------------------------------
  // Equality

  /** `t == other`: a `Success` equals a `Success` with an equal value; a
      `Failure` equals a `Failure` whose exception has exactly the same type
      and equal `args`. It is never equal to anything but a `Try`. */
  function Eq<T(==)>(t: Try<T>, other: Obj<T>): (r: bool)
    ensures r <==> other == TryObj(t)
  {
    match t
    case Success(v) =>
      other.TryObj? && other.t.Success? && v == other.t.v
    case Failure(e) =>
      other.TryObj? && other.t.Failure? && e.cls == other.t.e.cls && e.args == other.t.e.args
  }

  /** `t != other`: the negation of `==`. */
  function Ne<T(==)>(t: Try<T>, other: Obj<T>): (r: bool)
    ensures r <==> other != TryObj(t)
  {
    !Eq(t, other)
  }
}
