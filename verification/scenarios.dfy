/** The library's own usage examples, restated over the model: concrete
    options, concrete functions, and the outcome each call chain must have. */
module Scenarios {
  import opened Outcomes
  import opened Options
  import opened OptionLaws
  import opened References
  import opened Slots
  import opened Chains

  /** `expect` and `unwrap` on `Some(117)` and on `None`. */
  lemma ExtractionExamples()
    ensures Expect(Some(117), NonNull("OH NO!")) == Ok(117)
    ensures Expect<int>(None, NonNull("OH NO!")) == Fail(UnwrapFailure, "OH NO!")
    ensures Unwrap(Some(117)) == Ok(117)
    ensures Unwrap<int>(None) == Fail(UnwrapFailure, UnwrapNoneMessage)
    ensures UnwrapOr(Some(117), NonNull(259)) == Ok(117)
    ensures UnwrapOr(None, NonNull(259)) == Ok(259)
  {
  }

  /** `unwrapOrElse` with the supplier `() -> 2 * 2`. */
  lemma UnwrapOrElseExamples()
    ensures UnwrapOrElse(Some(117), NonNull(() => NonNull(2 * 2))) == Ok(117)
    ensures UnwrapOrElse(None, NonNull(() => NonNull(2 * 2))) == Ok(4)
  {
  }

  /** `map(String::length)`, `mapOr` and `mapOrElse` on strings. */
  lemma TransformationExamples()
    ensures Map(Some("Hello there!"), Lift((s: string) => |s|)) == Ok(Some(12))
    ensures Map(None, Lift((s: string) => |s|)) == Ok(None)
    ensures MapOr(Some("Java is awesome!"), NonNull("I'm the default value!"),
                  Lift((s: string) => s + "\nI agree! :D"))
            == Ok("Java is awesome!\nI agree! :D")
    ensures MapOr(None, NonNull("I'm the default value!"), Lift((s: string) => s + "\nI agree! :D"))
            == Ok("I'm the default value!")
    ensures MapOrElse(Some("Hello "), Supply("is away!"), Lift((s: string) => s + "world!"))
            == Ok("Hello world!")
    ensures MapOrElse(None, Supply("is away!"), Lift((s: string) => s + "world!")) == Ok("is away!")
  {
    assert "Java is awesome!" + "\nI agree! :D" == "Java is awesome!\nI agree! :D";
    assert "Hello " + "world!" == "Hello world!";
  }

  /** `and`, `or` and `orElse` between concrete options. */
  lemma CombinatorExamples()
    ensures And<int, string>(None, NonNull(Some("There was a contained value!"))) == Ok(None)
    ensures And(Some(99), NonNull(Some("There was a contained value!")))
            == Ok(Some("There was a contained value!"))
    ensures Or(Some("a"), NonNull(None)) == Ok(Some("a"))
    ensures Or(Some("c"), NonNull(Some("d"))) == Ok(Some("c"))
    ensures Or(None, NonNull(Some("f"))) == Ok(Some("f"))
    ensures OrElse(Some("August"), Supply(Some("Leon"))) == Ok(NonNull(Some("August")))
    ensures OrElse(None, Supply(Some("Leon"))) == Ok(NonNull(Some("Leon")))
    ensures OrElse<string>(None, Supply(None)) == Ok(NonNull(None))
  {
  }

  /** Squaring, as a chain step that always returns `Some`. */
  const Square: Nullable<int -> Nullable<Option<int>>> := Lift((n: int) => Some(n * n))

  /** A chain step that always returns `None`. */
  const Nope: Nullable<int -> Nullable<Option<int>>> := Lift((_: int) => None)

  /** `andThen` chains: squaring `Some(2)` twice gives `Some(16)`, any step
      returning `None` makes the whole chain `None`, and the payload type may
      change in the last step. */
  lemma AndThenChainExamples()
    ensures Chain(Some(2), [Square, Square]) == Ok(NonNull(Some(16)))
    ensures Chain(Some(2), [Square, Nope]) == Ok(NonNull(None))
    ensures Chain(Some(2), [Nope, Square]) == Ok(NonNull(None))
    ensures Chain(None, [Square, Square]) == Ok(NonNull(None))
    ensures AndThen(Some(2), Square) == Ok(NonNull(Some(4)))
    ensures AndThen(Some(4), Lift((_: int) => Some("New type!"))) == Ok(NonNull(Some("New type!")))
  {
    assert Chain(Some(2), [Square, Square]) == Run(Ok(NonNull(Some(4))), [Square]);
    assert Run(Ok(NonNull(Some(4))), [Square]) == Run(Ok(NonNull(Some(16))), []);
    assert Chain(Some(2), [Square, Nope]) == Run(Ok(NonNull(Some(4))), [Nope]);
    assert Chain(Some(2), [Nope, Square]) == Run(Ok(NonNull(None)), [Square]);
    assert Chain(None, [Square, Square]) == Run(Ok(NonNull(None)), [Square]);
  }

  /** `map(x -> x * 2).or(Some(68)).map(x -> x + 10).unwrap()` on any
      option: the doubled value plus ten, or 78 when the option is empty. */
  function DoubleOrSixtyEightPlusTen(o: Option<int>): (r: Outcome<int>)
    ensures r == Ok(match o case Some(x) => x * 2 + 10 case None => 78)
  {
    match Map(o, Lift((x: int) => x * 2))
    case Fail(k, m) => Fail(k, m)
    case Ok(doubled) =>
      match Or(doubled, NonNull(Some(68)))
      case Fail(k, m) => Fail(k, m)
      case Ok(present) =>
        match Map(present, Lift((x: int) => x + 10))
        case Fail(k, m) => Fail(k, m)
        case Ok(shifted) => Unwrap(shifted)
  }

  /** The two use cases: starting from `Some(42)` gives 94, from `None` 78. */
  lemma UseCases()
    ensures DoubleOrSixtyEightPlusTen(Some(42)) == Ok(94)
    ensures DoubleOrSixtyEightPlusTen(None) == Ok(78)
  {
  }

  /** Copying `Some("foo")` gives an equal option; copying `None` throws. */
  lemma CopyExamples()
    ensures CopyOf(NonNull(Some("foo"))) == Ok(Some("foo"))
    ensures Equals(Some("foo"), NonNull(CopyOf(NonNull(Some("foo"))).value))
    ensures CopyOf<string>(NonNull(None)) == Fail(IllegalArgument, CopyFromNoneMessage)
  {
  }

  /** `getOrInsert` on a handler holding `None`, called on its own content:
      returns "foo" and leaves `Some("foo")` in the handler. */
  method GetOrInsertExample() returns (returned: Outcome<string>, left: Nullable<Option<string>>)
    ensures returned == Ok("foo")
    ensures left == NonNull(Some("foo"))
  {
    var handler := new ReferenceHandler<Option<string>>(NonNull(None));
    var receiver := handler.Get();
    returned := GetOrInsertInto(receiver.x, handler, NonNull("foo"));
    left := handler.Get();
  }

  /** `getOrInsertWith` with the supplier `() -> "foo"`, likewise. */
  method GetOrInsertWithExample() returns (returned: Outcome<string>, left: Nullable<Option<string>>)
    ensures returned == Ok("foo")
    ensures left == NonNull(Some("foo"))
  {
    var handler := new ReferenceHandler<Option<string>>(NonNull(None));
    var receiver := handler.Get();
    returned := GetOrInsertWithInto(receiver.x, handler, NonNull(() => NonNull("foo")));
    left := handler.Get();
  }

  /** `take` on a handler holding `Some(117)` returns `Some(117)` and empties
      it; on a handler holding `None` it returns `None` and the handler stays
      empty. */
  method TakeExample() returns (taken: Outcome<Option<int>>, left: Nullable<Option<int>>,
                                takenFromEmpty: Outcome<Option<int>>, leftEmpty: Nullable<Option<int>>)
    ensures taken == Ok(Some(117)) && left == NonNull(None)
    ensures takenFromEmpty == Ok(None) && leftEmpty == NonNull(None)
  {
    var full := new ReferenceHandler<Option<int>>(NonNull(Some(117)));
    var receiver := full.Get();
    taken := TakeFrom(receiver.x, full);
    left := full.Get();

    var empty := new ReferenceHandler<Option<int>>(NonNull(None));
    receiver := empty.Get();
    takenFromEmpty := TakeFrom(receiver.x, empty);
    leftEmpty := empty.Get();
  }
}
