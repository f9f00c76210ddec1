/** The examples in the docstrings of `tryingsnake/__init__.py` and in its
    test suite, stated as facts about the model. Each user callable of an
    example is written out as the `Outcome` its call has. */
module TryingSnakeDoctests {
  import opened Python
  import opened TryingSnake

  function DivisionByZero(): Exn
  {
    Exn(ZeroDivisionError, [StrArg("division by zero")])
  }

  /** `operator.truediv` on operands that divide exactly. */
  function TrueDiv(p: (int, int)): Outcome<int>
  {
    if p.1 == 0 then Raised(DivisionByZero()) else Returned(p.0 / p.1)
  }

  /** `operator.add` on two integers. */
  function Add(p: (int, int)): Outcome<int>
  {
    Returned(p.0 + p.1)
  }

  function UnsupportedOperands(): Exn
  {
    NewTypeError("unsupported operand type(s) for +")
  }

  /** `operator.add(x, "0")` for an integer `x`. */
  function AddString(p: (int, string)): Outcome<int>
  {
    Raised(UnsupportedOperands())
  }

  /** `lambda x: Try(add, x, 1)`. */
  function TryAddOne(x: int): Outcome<Obj<int>>
  {
    AndThen(Capture([], Add, (x, 1)), (t: Try<int>) => Returned(TryObj(t)))
  }

  /** `lambda x: Try(add, x, "0")`. */
  function TryAddString(x: int): Outcome<Obj<int>>
  {
    AndThen(Capture([], AddString, (x, "0")), (t: Try<int>) => Returned(TryObj(t)))
  }

  /** `lambda t: Try(lambda: 0)`. */
  function TryZero(t: Exn): Outcome<Obj<int>>
  {
    AndThen(Capture<(), int>([], (_: ()) => Returned(0), ()), (t: Try<int>) => Returned(TryObj(t)))
  }

  function ListIndexOutOfRange(): Exn
  {
    Exn(IndexError, [StrArg("list index out of range")])
  }

  /** `operator.getitem(xs, i)` for a non-negative index. */
  function GetItem(p: (seq<int>, nat)): Outcome<int>
  {
    if p.1 < |p.0| then Returned(p.0[p.1]) else Raised(ListIndexOutOfRange())
  }

  /** The message `TypeError` carries when a non-`Try` `int` is returned
      where a `Try` is due. */
  lemma IntIsNotATry()
    ensures InvalidReturnType + TypeRepr<int>(Plain(1, "int")) == "Invalid return type for f: <class 'int'>"
  {
  }

  /** The `isSuccess` and `isFailure` docstrings. */
  lemma InspectionDoctest()
    ensures IsSuccess(Success(1)) && !IsFailure(Success(1))
    ensures IsFailure(Try<int>.Failure(Exn(Exception, []))) && !IsSuccess(Try<int>.Failure(Exn(Exception, [])))
  {
  }

  /** `IndexError` derives from `LookupError` and from `BaseException`. */
  lemma IndexErrorIsCatchable()
    ensures IsSubclass(IndexError, LookupError) && IsSubclass(IndexError, BaseException)
  {
  }

  function E(msg: string): Exn
  {
    Exn(Exception, [StrArg(msg)])
  }

  /** The `Try` docstring: `Try(truediv, 1, 0)` is a `Failure` holding a
      `ZeroDivisionError` and `Try(add, 1, 2)` is `Success(3)`; the tests add
      that `Try(truediv, 4, 2)` is `Success(2)`. */
  lemma TryDoctest()
    ensures Capture([], TrueDiv, (1, 0)) == Returned(Failure(DivisionByZero()))
    ensures Capture([], Add, (1, 2)) == Returned(Success(3))
    ensures Capture([], TrueDiv, (4, 2)) == Returned(Success(2))
  {
  }

  /** Registering `IndexError` makes `Try(getitem, [], 0)` raise, and
      `set_unhandled()` restores boxing. */
  method SetUnhandledDoctest() returns (before: Outcome<Try<int>>, during: Outcome<Try<int>>,
                                        after: Outcome<Try<int>>)
    ensures before == Returned(Failure(ListIndexOutOfRange()))
    ensures during == Raised(ListIndexOutOfRange())
    ensures after == before
  {
    var registry := new Registry();
    before := registry.Call(GetItem, ([], 0));
    registry.SetUnhandled(Some([IndexError]));
    IndexErrorIsCatchable();
    assert IndexError in [IndexError];
    during := registry.Call(GetItem, ([], 0));
    registry.SetUnhandled(None);
    after := registry.Call(GetItem, ([], 0));
  }

  /** A subclass of a registered class is caught by the registry too:
      with `LookupError` registered, an `IndexError` is re-raised. */
  lemma RegistryMatchesSubclasses()
    ensures Capture([LookupError], GetItem, ([7], 3)) == Raised(ListIndexOutOfRange())
  {
    IndexErrorIsCatchable();
    IsSubclassTransitive(LookupError, Exception, BaseException);
    assert LookupError in [LookupError];
  }

  /** `KeyboardInterrupt` derives from `BaseException` only. */
  lemma KeyboardInterruptIsNoException()
    ensures !IsException(Exn(KeyboardInterrupt, []))
  {
  }

  /** A `KeyboardInterrupt` is no `Exception`: `Try` lets it propagate. */
  lemma KeyboardInterruptPropagates()
    ensures Capture<(), int>([], (_: ()) => Raised(Exn(KeyboardInterrupt, [])), ()) == Raised(Exn(KeyboardInterrupt, []))
  {
  }

  /** `Failure(KeyboardInterrupt())` raises `TypeError`. */
  lemma FailureRefusesBaseException()
    ensures NewFailure<int>(ExnObj(Exn(KeyboardInterrupt, [])))
         == Raised(NewTypeError(InvalidFailureType + "<class 'KeyboardInterrupt'>"))
  {
    KeyboardInterruptIsNoException();
    assert TypeRepr<int>(ExnObj(Exn(KeyboardInterrupt, []))) == "<class 'KeyboardInterrupt'>";
  }

  /** `Failure(1)` raises `TypeError`. */
  lemma FailureRefusesInt()
    ensures NewFailure<int>(Plain(1, "int")) == Raised(NewTypeError("Invalid type for Failure: <class 'int'>"))
  {
    assert TypeRepr<int>(Plain(1, "int")) == "<class 'int'>";
    assert InvalidFailureType + "<class 'int'>" == "Invalid type for Failure: <class 'int'>";
  }

  /** The `map` docstring: `Success(1).map(inc)`, a `Failure` mapped, and a
      raising function mapped over `Success("1")`. */
  lemma MapDoctest()
    ensures Map([], Success(1), (x: int) => Returned(x + 1)) == Returned(Success(2))
    ensures Map([], Try<int>.Failure(E("e")), (x: int) => Returned(x + 1)) == Returned(Failure(E("e")))
    ensures Map([], Success("1"), (_: string) => Raised(E("e"))) == Returned(Try<string>.Failure(E("e")))
  {
  }

  /** The `flatMap` docstring and tests: a function returning a `Try` gives
      it, a `Failure` is kept, a function whose own `Try` caught a
      `TypeError` gives that `Failure`, and one that returns a bare value
      raises `TypeError`. */
  lemma FlatMapDoctest()
    ensures FlatMap([], Success(1), TryAddOne) == Returned(Success(2))
    ensures FlatMap([], Try<int>.Failure(E("e")), TryAddOne) == Returned(Failure(E("e")))
    ensures FlatMap([], Success(1), TryAddString) == Returned(Failure(UnsupportedOperands()))
    ensures FlatMap([], Success(1), (x: int) => Returned(Plain(x, "int")))
         == Raised(NewTypeError("Invalid return type for f: <class 'int'>"))
  {
    IntIsNotATry();
  }

  /** The `filter` docstring and tests: a holding predicate keeps the
      `Success`, a failing one gives `Failure(Exception(msg))`, a `Failure`
      is kept, and a custom exception class is used when given. */
  lemma FilterDoctest()
    ensures Filter(Success(1), (x: int) => Returned(x > 0), "<lambda>", Exception, None) == Returned(Success(1))
    ensures Filter(Try<int>.Failure(E("e")), (x: int) => Returned(x != 0), "<lambda>", Exception, None)
         == Returned(Failure(E("e")))
    ensures Filter(Success(1), (x: int) => Returned(x < 0), "<lambda>", Exception, Some("Greater than zero"))
         == Returned(Failure(E("Greater than zero")))
    ensures Filter(Success(1), (x: int) => Returned(false), "<lambda>", Derived("DummyException", Exception), Some("dummy"))
         == Returned(Failure(Exn(Derived("DummyException", Exception), [StrArg("dummy")])))
    ensures Filter(Success(1), (x: int) => Returned(false), "<lambda>", Exception, Some(""))
         == Returned(Failure(E("<lambda>")))
  {
  }

  /** The `recover` and `recoverWith` docstrings and tests. */
  lemma RecoverDoctest()
    ensures Recover([], Success(1), (_: Exn) => Returned(0)) == Returned(Success(1))
    ensures Recover([], Try<int>.Failure(E("e")), (_: Exn) => Returned(0)) == Returned(Success(0))
    ensures Recover([], Try<int>.Failure(E("e")), (_: Exn) => Raised(E("e"))) == Returned(Failure(E("e")))
    ensures RecoverWith([], Success(1), TryZero) == Returned(Success(1))
    ensures RecoverWith([], Try<int>.Failure(E("e")), TryZero) == Returned(Success(0))
    ensures RecoverWith([], Try<int>.Failure(E("e")), (_: Exn) => Returned(Plain(1, "int")))
         == Raised(NewTypeError("Invalid return type for f: <class 'int'>"))
  {
    IntIsNotATry();
  }

  /** The extractor docstrings: `get`, `getOrElse`, `orElse`, `failed`. */
  lemma ExtractorDoctest()
    ensures Get(Success(1)) == Returned(1)
    ensures Get(Try<int>.Failure(E("e"))) == Raised(E("e"))
    ensures GetOrElse(Success(1), 0) == 1 && GetOrElse(Try<int>.Failure(E("e")), 0) == 0
    ensures OrElse(Success(1), TryObj(Success(0))) == Returned(Success(1))
    ensures OrElse(Try<int>.Failure(E("e")), TryObj(Success(0))) == Returned(Success(0))
    ensures OrElse(Try<int>.Failure(E("e")), Plain(1, "int")) == Raised(NewTypeError("Invalid return type for f: <class 'int'>"))
    ensures Failed(Success(1)) == Raised(NewTypeError("Cannot fail Success"))
    ensures Failed(Try<int>.Failure(E("e"))) == Raised(E("e"))
  {
    IntIsNotATry();
  }

  /** The equality docstrings and tests. */
  lemma EqualityDoctest()
    ensures Eq(Success(1), TryObj(Success(1))) && Ne(Success(1), TryObj(Success(2)))
    ensures Ne(Success(1), Plain(1, "int"))
    ensures Ne(Success(1), TryObj(Failure(Exn(Exception, []))))
    ensures Eq(Try<int>.Failure(E("e")), TryObj(Failure(E("e"))))
    ensures Ne(Try<int>.Failure(Exn(Exception, [IntArg(-1)])), TryObj(Failure(Exn(Exception, [IntArg(0)]))))
    ensures Ne(Try<int>.Failure(Exn(ZeroDivisionError, [])), TryObj(Failure(Exn(TypeError, []))))
    ensures Ne(Try<int>.Failure(E("e")), ExnObj(E("e")))
  {
  }
}
