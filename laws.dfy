/** Properties that relate several operations of the Try abstraction:
    how the combinators compose, how capture and `get` undo each other,
    how the registry's inheritance-aware matching behaves, and why
    `Failure` equality is exact-type equality. */
module TryingSnakeLaws {
  import opened Python
  import opened TryingSnake

  // ---------------------------------------------------------------------
  // Composition of the combinators

  /** Mapping a function that returns its argument changes nothing. */
  lemma MapIdentity<T>(unhandled: seq<Class>, t: Try<T>)
    ensures Map(unhandled, t, (x: T) => Returned(x)) == Returned(t)
  {
  }

  /** `t.map(f).map(g)` behaves as `t.map(lambda x: g(f(x)))`: a chain of
      `map` calls needs no error handling between its steps, whatever the
      registry holds. */
  lemma MapFusion<T, U, V>(unhandled: seq<Class>, t: Try<T>, f: T -> Outcome<U>, g: U -> Outcome<V>)
    ensures AndThen(Map(unhandled, t, f), (s: Try<U>) => Map(unhandled, s, g))
         == Map(unhandled, t, (x: T) => AndThen(f(x), g))
  {
  }

  /** `lambda x: Success(x)` is a right identity of `flatMap`. */
  lemma FlatMapRightIdentity<T>(unhandled: seq<Class>, t: Try<T>)
    ensures FlatMap(unhandled, t, (x: T) => Returned(TryObj(Success(x)))) == Returned(t)
  {
  }

  /** `flatMap` is not associative. With `f = lambda x: Success(x)` and
      `g = lambda y: y`, `t.flatMap(f).flatMap(g)` raises the `TypeError`
      for `g`'s non-`Try` result, while `t.flatMap(lambda x: Success(x).flatMap(g))`
      raises it inside the outer capture, which boxes it as a `Failure`. */
  lemma FlatMapNotAssociative<T>(unhandled: seq<Class>, v: T, typeName: string)
    requires CatchableClasses(unhandled) && forall k :: k in unhandled ==> !IsSubclass(TypeError, k)
    ensures var f := (x: T) => Returned(TryObj(Success(x)));
            var g := (y: T) => Returned(Plain(y, typeName));
            var te := NewTypeError(InvalidReturnType + TypeRepr(Plain(v, typeName)));
            AndThen(FlatMap(unhandled, Success(v), f), (s: Try<T>) => FlatMap(unhandled, s, g)) == Raised(te)
            && FlatMap(unhandled, Success(v), (x: T) => AndThen(FlatMap(unhandled, Success(x), g), (w: Try<T>) => Returned(TryObj(w))))
               == Returned(Failure(te))
  {
  }

  /** `map(f)` is `flatMap` of `f` with its result wrapped in `Success`. */
  lemma MapIsFlatMapOfSuccess<T, U>(unhandled: seq<Class>, t: Try<T>, f: T -> Outcome<U>)
    ensures Map(unhandled, t, f)
         == FlatMap(unhandled, t, (x: T) => AndThen(f(x), (y: U) => Returned(TryObj(Success(y)))))
  {
  }

  /** `Failure(e).recover(f)` is `map(f)` over a `Success` holding `e`, and
      `recoverWith` is `flatMap` in the same way: the failure side reuses
      the success side with the exception as the value. */
  lemma RecoverMirrorsMap<T>(unhandled: seq<Class>, e: Exn, f: Exn -> Outcome<T>, g: Exn -> Outcome<Obj<T>>)
    ensures Recover(unhandled, Failure(e), f) == Map(unhandled, Success(e), f)
    ensures RecoverWith(unhandled, Failure(e), g) == FlatMap(unhandled, Success(e), g)
  {
  }

  /** A `Failure` recovered with a function that raises a boxable
      exception stays a `Failure`, now holding the new exception, instead of
      propagating it. */
  lemma RecoverBoxesRaisingFunction<T>(unhandled: seq<Class>, e: Exn, f: Exn -> Outcome<T>)
    requires CatchableClasses(unhandled)
    requires f(e).Raised? && IsException(f(e).exn)
    requires forall k :: k in unhandled ==> !IsInstance(f(e).exn, k)
    ensures Recover(unhandled, Failure(e), f) == Returned(Failure(f(e).exn))
  {
  }

  // ---------------------------------------------------------------------
  // Capture and get

  /** Whatever `Try(f, a)` boxes, `get` hands back as `f(a)` would have
      ended. */
  lemma GetUndoesCapture<A, T>(unhandled: seq<Class>, f: A -> Outcome<T>, a: A)
    requires Capture(unhandled, f, a).Returned?
    ensures Get(Capture(unhandled, f, a).value) == f(a)
  {
  }

  /** With no class registered, capturing `t.get()` rebuilds `t`. */
  lemma CaptureUndoesGet<T>(t: Try<T>)
    requires Valid(t)
    ensures Capture([], (_: ()) => Get(t), ()) == Returned(t)
  {
  }

  // ---------------------------------------------------------------------
  // The registry

  /** The registry matches with `isinstance`: once `k` is registered, an
      exception of any class below `k`, however deep, is re-raised. */
  lemma SubclassOfUnhandledIsRethrown<A, T>(unhandled: seq<Class>, k: Class, c: Class,
                                            f: A -> Outcome<T>, a: A)
    requires CatchableClasses(unhandled) && k in unhandled
    requires f(a).Raised? && IsSubclass(f(a).exn.cls, c) && IsSubclass(c, k)
    ensures Capture(unhandled, f, a) == Raised(f(a).exn)
  {
    IsSubclassTransitive(f(a).exn.cls, c, k);
  }

  /** Registering the class of an exception makes `Try` re-raise it: an
      `Exception` class is always a valid entry of the `except` tuple. */
  lemma RegisteringOwnClassRethrows<A, T>(f: A -> Outcome<T>, a: A)
    requires f(a).Raised? && IsException(f(a).exn)
    ensures Capture([f(a).exn.cls], f, a) == Raised(f(a).exn)
  {
    ExceptionIsBaseException(f(a).exn);
    assert f(a).exn.cls in [f(a).exn.cls];
  }

  /** The empty registry, the default and what `set_unhandled()` restores,
      boxes exactly the `Exception` instances. */
  lemma EmptyRegistryBoxesExceptions<A, T>(f: A -> Outcome<T>, a: A)
    requires f(a).Raised?
    ensures Capture([], f, a) == (if IsException(f(a).exn) then Returned(Failure(f(a).exn)) else Raised(f(a).exn))
  {
  }

  /** Registering `Exception` turns capture off: nothing raised becomes a
      `Failure`. */
  lemma RegisteringExceptionBoxesNothing<A, T>(f: A -> Outcome<T>, a: A)
    ensures Capture([Exception], f, a).Returned? ==> f(a).Returned?
  {
  }

  /** Only which classes are registered matters, not their order or
      repetition in the tuple. */
  lemma RegistryOrderIrrelevant<A, T>(u1: seq<Class>, u2: seq<Class>, f: A -> Outcome<T>, a: A)
    requires forall k :: k in u1 <==> k in u2
    ensures Capture(u1, f, a) == Capture(u2, f, a)
  {
  }

  // ---------------------------------------------------------------------
  // Equality

  /** `type(e1) is type(e2)` is `issubclass` in both directions, so
      `Failure` equality is exactly mutual `issubclass` plus equal `args`. */
  lemma FailureEqIsMutualSubclass<T>(e1: Exn, e2: Exn)
    ensures Eq(Try<T>.Failure(e1), TryObj(Failure(e2)))
        <==> IsSubclass(e1.cls, e2.cls) && IsSubclass(e2.cls, e1.cls) && e1.args == e2.args
  {
    if IsSubclass(e1.cls, e2.cls) && IsSubclass(e2.cls, e1.cls) {
      IsSubclassAntisymmetric(e1.cls, e2.cls);
    }
  }

  /** `isinstance` is not enough for `Failure` equality: a `TypeError` is an
      `Exception`, yet `Failure(TypeError("e")) != Failure(Exception("e"))`. */
  lemma SubclassFailuresDiffer<T>()
    ensures IsInstance(Exn(TypeError, [StrArg("e")]), Exception)
    ensures Ne(Try<T>.Failure(Exn(TypeError, [StrArg("e")])), TryObj(Failure(Exn(Exception, [StrArg("e")]))))
  {
  }

  /** `==` on `Try` values is an equivalence relation. */
  lemma EqIsEquivalence<T>(a: Try<T>, b: Try<T>, c: Try<T>)
    ensures Eq(a, TryObj(a))
    ensures Eq(a, TryObj(b)) == Eq(b, TryObj(a))
    ensures Eq(a, TryObj(b)) && Eq(b, TryObj(c)) ==> Eq(a, TryObj(c))
  {
  }
}
