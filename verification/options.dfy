/** The `Option` tagged union and its combinators.

    Each combinator dispatches on the tag: the `Some` branch follows the
    present-variant class, the `None` branch the absent-variant class, check for
    check, so that the exception raised (and its message) is the one the Java
    code raises first. */
module Options {
  import opened Outcomes

  /** `Some` always holds a value: the Java constructor rejects null, and no
      operation changes an option after construction. */
  datatype Option<T> = Some(value: T) | None

  // Messages of the exceptions, exactly as the two variant classes word them.
  const ValueNullMessage := "value cannot be null."
  const CopyFromNoneMessage := "`option` is none. It does not contain value to copy."
  const CustomMessageNullMessage := "customErrorMessage cannot be null."
  const UnwrapNoneMessage := "called `fr.songbird.rapi.option.Option.unwrap()` on a `None` object"
  const DefaultValueNullMessage := "defaultValue cannot be null."
  const ExpressionNullMessage := "`expression` cannot be null"
  const ExpressionResultNullMessage := "The `expression` result cannot be null."
  const MapFunctionNullMessage := "`appliedFunction` cannot be null."
  const MappedValueNullMessage := "`U` value cannot be null."
  const MapOrFunctionNullMessage := "appliedFunction cannot be null."
  const MapOrResultNullMessage := "returnedValue cannot be null."
  const DefaultActionNullMessage := "defaultAction cannot be null."
  const SomeActionNullMessage := "isSomeAction cannot be null."
  const SomeDefaultResultNullMessage := "defaultActionResult cannot be null."
  const NoneDefaultResultNullMessage := "result cannot be null."
  const SomeActionResultNullMessage := "isSomeActionResult cannot be null."
  const SomeAndArgumentNullMessage := "opt cannot be null"
  const NoneAndArgumentNullMessage := "opt cannot be null."
  const FunctionNullMessage := "function cannot be null."
  const OrArgumentNullMessage := "option cannot be null."

  /* ----- Construction ----- */

  /** `new Some<>(value)`. */
  function NewSome<T>(value: Nullable<T>): (r: Outcome<Option<T>>)
    ensures r.Ok? <==> value.NonNull?
    ensures r.Ok? ==> value.NonNull? && IsSome(r.value) && Unwrap(r.value) == Ok(value.x)
    ensures r.Fail? ==> r == Fail(NullArgument, ValueNullMessage)
  {
    var v :- RequireNonNull(value, ValueNullMessage);
    Ok(Some(v))
  }

  /** `new Some<>(option)`: the shallow-copy constructor. Asking a null
      reference whether it is `Some` throws. */
  function CopyOf<T>(source: Nullable<Option<T>>): (r: Outcome<Option<T>>)
    ensures source.Null? ==> r.Fail? && r.kind == NullDereference
    ensures source.NonNull? ==> (r.Ok? <==> IsSome(source.x))
    ensures source.NonNull? && IsNone(source.x) ==> r == Fail(IllegalArgument, CopyFromNoneMessage)
    ensures r.Ok? ==> source.NonNull? && r.value == source.x
  {
    match source
    case Null => Fail(NullDereference, "")
    case NonNull(Some(v)) => Ok(Some(v))
    case NonNull(None) => Fail(IllegalArgument, CopyFromNoneMessage)
  }

  /* ----- Tag predicates and content equality ----- */

  /** `isSome()`. */
  function IsSome<T>(o: Option<T>): (b: bool)
    ensures b <==> o.Some?
  {
    match o
    case Some(_) => true
    case None => false
  }

  /** `isNone()`: exactly the options that are not `Some`. */
  function IsNone<T>(o: Option<T>): (b: bool)
    ensures b <==> !IsSome(o)
    ensures b <==> o == None
  {
    match o
    case Some(_) => false
    case None => true
  }

  /** `equals(other)` for another option reference: compares contents only.
      The Java payloads' own `equals` is taken to be value equality. */
  function Equals<T(==)>(o: Option<T>, other: Nullable<Option<T>>): (b: bool)
    ensures b <==> other == NonNull(o)
  {
    match o
    case Some(v) => other.NonNull? && IsSome(other.x) && other.x.value == v
    case None => other.NonNull? && IsNone(other.x)
  }

  /* ----- Extraction ----- */

  /** `expect(message)`. */
  function Expect<T>(o: Option<T>, message: Nullable<string>): (r: Outcome<T>)
    ensures message.Null? ==> r == Fail(NullArgument, CustomMessageNullMessage)
    ensures message.NonNull? && IsSome(o) ==> r == Unwrap(o)
    ensures message.NonNull? && IsNone(o) ==> r == Fail(UnwrapFailure, message.x)
  {
    match o
    case Some(v) =>
      var _ :- RequireNonNull(message, CustomMessageNullMessage);
      Ok(v)
    case None =>
      var m :- RequireNonNull(message, CustomMessageNullMessage);
      Fail(UnwrapFailure, m)
  }

  /** `unwrap()`. */
  function Unwrap<T>(o: Option<T>): (r: Outcome<T>)
    ensures r.Ok? <==> IsSome(o)
    ensures r.Ok? ==> o == Some(r.value)
    ensures r.Fail? ==> r == Fail(UnwrapFailure, UnwrapNoneMessage)
  {
    match o
    case Some(v) => Ok(v)
    case None => Fail(UnwrapFailure, UnwrapNoneMessage)
  }

  /** `unwrapOr(default)`. */
  function UnwrapOr<T>(o: Option<T>, default: Nullable<T>): (r: Outcome<T>)
    ensures default.Null? ==> r == Fail(NullArgument, DefaultValueNullMessage)
    ensures default.NonNull? && IsSome(o) ==> r == Unwrap(o)
    ensures default.NonNull? && IsNone(o) ==> r == Ok(default.x)
  {
    match o
    case Some(v) =>
      var _ :- RequireNonNull(default, DefaultValueNullMessage);
      Ok(v)
    case None =>
      var d :- RequireNonNull(default, DefaultValueNullMessage);
      Ok(d)
  }

  /** `unwrapOrElse(expression)`. The supplier is evaluated on both variants,
      so a null result fails even when the option holds a value. */
  function UnwrapOrElse<T>(o: Option<T>, expression: Nullable<() -> Nullable<T>>): (r: Outcome<T>)
    ensures expression.Null? ==> r == Fail(NullArgument, ExpressionNullMessage)
    ensures expression.NonNull? && expression.x().Null? ==>
              r == Fail(NullArgument, ExpressionResultNullMessage)
    ensures expression.NonNull? && expression.x().NonNull? ==> r == UnwrapOr(o, expression.x())
  {
    match o
    case Some(v) =>
      var s :- RequireNonNull(expression, ExpressionNullMessage);
      var _ :- RequireNonNull(s(), ExpressionResultNullMessage);
      Ok(v)
    case None =>
      var s :- RequireNonNull(expression, ExpressionNullMessage);
      RequireNonNull(s(), ExpressionResultNullMessage)
  }

  /* ----- Transformation ----- */

  /** `map(appliedFunction)`. */
  function Map<T, U>(o: Option<T>, f: Nullable<T -> Nullable<U>>): (r: Outcome<Option<U>>)
    ensures f.Null? ==> r == Fail(NullArgument, MapFunctionNullMessage)
    ensures f.NonNull? && IsNone(o) ==> r == Ok(None)
    ensures f.NonNull? && IsSome(o) && f.x(o.value).Null? ==>
              r == Fail(NullArgument, MappedValueNullMessage)
    ensures f.NonNull? && IsSome(o) && f.x(o.value).NonNull? ==> r == NewSome(f.x(o.value))
    ensures r.Ok? ==> IsSome(r.value) == IsSome(o)
  {
    match o
    case Some(v) =>
      var g :- RequireNonNull(f, MapFunctionNullMessage);
      var u :- RequireNonNull(g(v), MappedValueNullMessage);
      NewSome(NonNull(u))
    case None =>
      var _ :- RequireNonNull(f, MapFunctionNullMessage);
      Ok(None)
  }

  /** `mapOr(default, appliedFunction)`. */
  function MapOr<T, U>(o: Option<T>, default: Nullable<U>, f: Nullable<T -> Nullable<U>>): (r: Outcome<U>)
    ensures default.Null? ==> r == Fail(NullArgument, DefaultValueNullMessage)
    ensures default.NonNull? && f.Null? ==> r == Fail(NullArgument, MapOrFunctionNullMessage)
    ensures default.NonNull? && f.NonNull? && IsNone(o) ==> r == Ok(default.x)
    ensures default.NonNull? && f.NonNull? && IsSome(o) ==>
              r == RequireNonNull(f.x(o.value), MapOrResultNullMessage)
  {
    match o
    case Some(v) =>
      var _ :- RequireNonNull(default, DefaultValueNullMessage);
      var g :- RequireNonNull(f, MapOrFunctionNullMessage);
      RequireNonNull(g(v), MapOrResultNullMessage)
    case None =>
      var d :- RequireNonNull(default, DefaultValueNullMessage);
      var _ :- RequireNonNull(f, MapOrFunctionNullMessage);
      Ok(d)
  }

  /** `mapOrElse(defaultAction, isSomeAction)`. Both functions are null-checked
      and the default action is evaluated on both variants. */
  function MapOrElse<T, U>(o: Option<T>, defaultAction: Nullable<() -> Nullable<U>>,
                           someAction: Nullable<T -> Nullable<U>>): (r: Outcome<U>)
    ensures defaultAction.Null? ==> r == Fail(NullArgument, DefaultActionNullMessage)
    ensures defaultAction.NonNull? && someAction.Null? ==> r == Fail(NullArgument, SomeActionNullMessage)
    ensures defaultAction.NonNull? && someAction.NonNull? && defaultAction.x().Null? ==>
              r == Fail(NullArgument, if IsSome(o) then SomeDefaultResultNullMessage else NoneDefaultResultNullMessage)
    ensures defaultAction.NonNull? && someAction.NonNull? && defaultAction.x().NonNull? && IsNone(o) ==>
              r == Ok(defaultAction.x().x)
    ensures defaultAction.NonNull? && someAction.NonNull? && defaultAction.x().NonNull? && IsSome(o) ==>
              r == RequireNonNull(someAction.x(o.value), SomeActionResultNullMessage)
  {
    match o
    case Some(v) =>
      var d :- RequireNonNull(defaultAction, DefaultActionNullMessage);
      var g :- RequireNonNull(someAction, SomeActionNullMessage);
      var _ :- RequireNonNull(d(), SomeDefaultResultNullMessage);
      RequireNonNull(g(v), SomeActionResultNullMessage)
    case None =>
      var d :- RequireNonNull(defaultAction, DefaultActionNullMessage);
      var _ :- RequireNonNull(someAction, SomeActionNullMessage);
      RequireNonNull(d(), NoneDefaultResultNullMessage)
  }

  /* ----- Combinators over two options ----- */

  /** `and(opt)`. The two variants word the null-argument message differently. */
  function And<T, U>(o: Option<T>, other: Nullable<Option<U>>): (r: Outcome<Option<U>>)
    ensures other.Null? ==>
              r == Fail(NullArgument, if IsSome(o) then SomeAndArgumentNullMessage else NoneAndArgumentNullMessage)
    ensures other.NonNull? && IsSome(o) ==> r == Ok(other.x)
    ensures other.NonNull? && IsNone(o) ==> r == Ok(None)
  {
    match o
    case Some(_) =>
      RequireNonNull(other, SomeAndArgumentNullMessage)
    case None =>
      var _ :- RequireNonNull(other, NoneAndArgumentNullMessage);
      Ok(None)
  }

  /** `andThen(function)`. The function's result is handed back as is, so it
      may be a null reference. */
  function AndThen<T, U>(o: Option<T>, f: Nullable<T -> Nullable<Option<U>>>): (r: Outcome<Nullable<Option<U>>>)
    ensures f.Null? ==> r == Fail(NullArgument, FunctionNullMessage)
    ensures f.NonNull? ==> r.Ok?
    ensures f.NonNull? && IsSome(o) ==> r == Ok(f.x(o.value))
    ensures f.NonNull? && IsNone(o) ==> r == Ok(NonNull(None))
  {
    match o
    case Some(v) =>
      var g :- RequireNonNull(f, FunctionNullMessage);
      Ok(g(v))
    case None =>
      var _ :- RequireNonNull(f, FunctionNullMessage);
      Ok(NonNull(None))
  }

  /** `or(option)`. */
  function Or<T>(o: Option<T>, other: Nullable<Option<T>>): (r: Outcome<Option<T>>)
    ensures other.Null? ==> r == Fail(NullArgument, OrArgumentNullMessage)
    ensures other.NonNull? && IsSome(o) ==> r == Ok(o)
    ensures other.NonNull? && IsNone(o) ==> r == Ok(other.x)
  {
    match o
    case Some(_) =>
      var _ :- RequireNonNull(other, OrArgumentNullMessage);
      Ok(o)
    case None =>
      RequireNonNull(other, OrArgumentNullMessage)
  }

  /** `orElse(function)`. The supplier runs only on `None`, and its result is
      handed back as is, so it may be a null reference. */
  function OrElse<T>(o: Option<T>, supplier: Nullable<() -> Nullable<Option<T>>>): (r: Outcome<Nullable<Option<T>>>)
    ensures supplier.Null? ==> r == Fail(NullArgument, FunctionNullMessage)
    ensures supplier.NonNull? && IsSome(o) ==> r == Ok(NonNull(o))
    ensures supplier.NonNull? && IsNone(o) ==> r == Ok(supplier.x())
  {
    match o
    case Some(_) =>
      var _ :- RequireNonNull(supplier, FunctionNullMessage);
      Ok(NonNull(o))
    case None =>
      var s :- RequireNonNull(supplier, FunctionNullMessage);
      Ok(s())
  }
}
