/** How the combinators relate to each other, for every option and every
    argument: the interface's promises, the functor and monad laws, and the
    "constant supplier" correspondences between the eager and lazy forms. */
module OptionLaws {
  import opened Outcomes
  import opened Options

  /** A Java function that never returns null, built from a Dafny function. */
  function Lift<A, B>(f: A -> B): (r: Nullable<A -> Nullable<B>>)
    ensures r.NonNull?
  {
    NonNull(a => NonNull(f(a)))
  }

  /** A Java supplier that always supplies `b`. */
  function Supply<B>(b: B): (r: Nullable<() -> Nullable<B>>)
    ensures r.NonNull? && r.x() == NonNull(b)
  {
    NonNull(() => NonNull(b))
  }

  /* ----- The interface's promises, across both variants ----- */

  /** Exactly one tag predicate holds, and `isSome` picks out `Some`. */
  lemma ExactlyOneTag<T>(o: Option<T>)
    ensures IsSome(o) != IsNone(o)
    ensures IsSome(o) <==> exists v :: o == Some(v)
  {
    if o.Some? {
      assert o == Some(o.value);
    }
  }

  /** `expect(m)` and `unwrap()` succeed on the same options with the same
      value; on `None` they differ only in the message, `m` versus the fixed one. */
  lemma ExpectIsUnwrapWithMessage<T>(o: Option<T>, m: string)
    ensures Expect(o, NonNull(m)).Ok? <==> Unwrap(o).Ok?
    ensures Expect(o, NonNull(m)).Ok? ==> Expect(o, NonNull(m)) == Unwrap(o)
    ensures Expect(o, NonNull(m)).Fail? ==>
              Expect(o, NonNull(m)) == Fail(Unwrap(o).kind, m)
  {
  }

  /** A null message fails on both variants, before the tag matters. */
  lemma ExpectNullMessage<T>(o: Option<T>)
    ensures Expect(o, Null) == Expect<T>(None, Null) == Fail(NullArgument, CustomMessageNullMessage)
  {
  }

  /** `unwrapOr(d)` never fails for a non-null `d`, and returns the contained
      value when there is one. */
  lemma UnwrapOrIsTotal<T>(o: Option<T>, d: T)
    ensures UnwrapOr(o, NonNull(d)) == Ok(match o case Some(v) => v case None => d)
  {
  }

  /** `unwrapOrElse` with a supplier of `d` is `unwrapOr(d)`. */
  lemma UnwrapOrElseOfConstant<T>(o: Option<T>, d: T)
    ensures UnwrapOrElse(o, Supply(d)) == UnwrapOr(o, NonNull(d))
  {
  }

  /** Rebuilding from `unwrap` gives the option back: `Some(o.unwrap())` is `o`
      whenever `unwrap` succeeds. */
  lemma UnwrapThenRewrap<T>(o: Option<T>)
    ensures Unwrap(o).Ok? ==> NewSome(NonNull(Unwrap(o).value)) == Ok(o)
    ensures Unwrap(o).Fail? ==> o == None
  {
  }

  /** Copy-construction is the identity on `Some` and the copy is equal by
      content; on `None` it always fails. */
  lemma CopyRoundTrip<T>(o: Option<T>)
    ensures IsSome(o) ==> CopyOf(NonNull(o)) == Ok(o) && Equals(o, NonNull(CopyOf(NonNull(o)).value))
    ensures IsNone(o) ==> CopyOf(NonNull(o)) == Fail(IllegalArgument, CopyFromNoneMessage)
  {
  }

  /** Content equality is an equivalence on options, and null equals nothing. */
  lemma EqualsIsEquivalence<T>(a: Option<T>, b: Option<T>, c: Option<T>)
    ensures Equals(a, NonNull(a))
    ensures Equals(a, NonNull(b)) <==> Equals(b, NonNull(a))
    ensures Equals(a, NonNull(b)) && Equals(b, NonNull(c)) ==> Equals(a, NonNull(c))
    ensures !Equals(a, Null)
  {
  }

  /* ----- map ----- */

  /** Mapping the identity changes nothing. */
  lemma MapIdentity<T>(o: Option<T>)
    ensures Map(o, Lift((x: T) => x)) == Ok(o)
  {
  }

  /** Mapping `f` then `g` is mapping their composition. */
  lemma MapComposition<T, U, W>(o: Option<T>, f: T -> U, g: U -> W)
    ensures Map(o, Lift(f)).Ok?
    ensures Map(Map(o, Lift(f)).value, Lift(g)) == Map(o, Lift((x: T) => g(f(x))))
  {
  }

  /** `map` then `unwrap` applies the function to the contained value. */
  lemma MapThenUnwrap<T, U>(o: Option<T>, f: T -> U)
    ensures Map(o, Lift(f)).Ok?
    ensures Unwrap(Map(o, Lift(f)).value) == (match o case Some(v) => Ok(f(v)) case None => Unwrap<U>(None))
  {
  }

  /** `mapOr(d, f)` is `map(f)` followed by `unwrapOr(d)`, for a function that
      never returns null. */
  lemma MapOrIsUnwrapOrOfMap<T, U>(o: Option<T>, d: U, f: T -> U)
    ensures Map(o, Lift(f)).Ok?
    ensures MapOr(o, NonNull(d), Lift(f)) == UnwrapOr(Map(o, Lift(f)).value, NonNull(d))
  {
  }

  /** `mapOrElse` with a supplier of `d` is `mapOr(d, f)`: they succeed
      together with the same value, and fail together with the same kind of
      exception (a null `f` included), though the messages may differ. */
  lemma MapOrElseOfConstant<T, U>(o: Option<T>, d: U, f: Nullable<T -> Nullable<U>>)
    ensures MapOrElse(o, Supply(d), f).Ok? <==> MapOr(o, NonNull(d), f).Ok?
    ensures MapOrElse(o, Supply(d), f).Ok? ==> MapOrElse(o, Supply(d), f) == MapOr(o, NonNull(d), f)
    ensures MapOrElse(o, Supply(d), f).Fail? ==> MapOrElse(o, Supply(d), f).kind == MapOr(o, NonNull(d), f).kind
  {
  }

  /* ----- and / andThen ----- */

  /** `and(p)` is `andThen` with a function that ignores its argument and
      returns `p`. */
  lemma AndIsAndThenOfConstant<T, U>(o: Option<T>, p: Option<U>)
    ensures And(o, NonNull(p)).Ok?
    ensures AndThen(o, Lift((_: T) => p)) == Ok(NonNull(And(o, NonNull(p)).value))
  {
  }

  /** Left identity: `Some(v).andThen(f)` is `f(v)`, null or not. */
  lemma AndThenLeftIdentity<T, U>(v: T, f: T -> Nullable<Option<U>>)
    ensures AndThen(Some(v), NonNull(f)) == Ok(f(v))
  {
  }

  /** Right identity: `andThen(Some::new)` gives the option back. */
  lemma AndThenRightIdentity<T>(o: Option<T>)
    ensures AndThen(o, Lift((x: T) => Some(x))) == Ok(NonNull(o))
  {
  }

  /** Associativity, for functions that never return null. */
  lemma AndThenAssociative<T, U, W>(o: Option<T>, f: T -> Option<U>, g: U -> Option<W>)
    ensures AndThen(o, Lift(f)).Ok? && AndThen(o, Lift(f)).value.NonNull?
    ensures AndThen(AndThen(o, Lift(f)).value.x, Lift(g))
            == AndThen(o, NonNull((x: T) => AndThen(f(x), Lift(g)).value))
  {
  }

  /* ----- or / orElse ----- */

  /** `orElse` with a supplier of `p` is `or(p)`. */
  lemma OrElseOfConstant<T>(o: Option<T>, p: Option<T>)
    ensures Or(o, NonNull(p)).Ok?
    ensures OrElse(o, Supply(p)) == Ok(NonNull(Or(o, NonNull(p)).value))
  {
  }

  /** `or` keeps the first `Some`: it is `Some` exactly when one side is, and
      then holds the receiver's value if the receiver has one. */
  lemma OrPrefersReceiver<T>(o: Option<T>, p: Option<T>)
    ensures Or(o, NonNull(p)).Ok?
    ensures IsSome(Or(o, NonNull(p)).value) <==> IsSome(o) || IsSome(p)
    ensures IsSome(o) ==> Or(o, NonNull(p)).value == o
  {
  }

  /** `or` is associative. */
  lemma OrAssociative<T>(a: Option<T>, b: Option<T>, c: Option<T>)
    ensures Or(a, NonNull(b)).Ok? && Or(b, NonNull(c)).Ok?
    ensures Or(Or(a, NonNull(b)).value, NonNull(c)) == Or(a, NonNull(Or(b, NonNull(c)).value))
  {
  }
}
