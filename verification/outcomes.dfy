/** Java's nullable references and exceptions, as values.

    Every reference the library null-checks is a `Nullable`; every exception it
    raises is a `Fail` carrying the kind of exception and its message. */
module Outcomes {

  /** A Java reference that may be `null`. */
  datatype Nullable<X> = Null | NonNull(x: X)

  /** The exceptions the library raises, by cause rather than by JVM class. */
  datatype ErrorKind =
    | NullArgument     // `Objects.requireNonNull` rejected a null reference
    | NullDereference  // a method was called on a null reference
    | IllegalArgument  // the copy constructor was handed an empty option
    | UnwrapFailure    // `expect` or `unwrap` was called on an empty option

  /** The outcome of a call: a returned value, or a thrown exception. */
  datatype Outcome<X> = Ok(value: X) | Fail(kind: ErrorKind, msg: string) {

    predicate IsFailure() {
      Fail?
    }

    function PropagateFailure<U>(): Outcome<U>
      requires Fail?
    {
      Fail(kind, msg)
    }

    function Extract(): X
      requires Ok?
    {
      value
    }
  }

  /** `Objects.requireNonNull(n, message)`: hands back the referenced value, or
      throws a null-pointer exception carrying `message`. */
  function RequireNonNull<X>(n: Nullable<X>, message: string): (r: Outcome<X>)
    ensures r.Ok? <==> n.NonNull?
    ensures r.Ok? ==> n == NonNull(r.value)
    ensures r.Fail? ==> r == Fail(NullArgument, message)
  {
    match n
    case Null => Fail(NullArgument, message)
    case NonNull(v) => Ok(v)
  }
}
