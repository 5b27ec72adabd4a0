/** Chains of `andThen` calls, `o.andThen(f1).andThen(f2)...`, over one
    payload type.

    Each call in a chain is made on whatever the previous call returned: an
    exception stops the chain, and since `andThen` does not null-check its
    function's result, a null returned mid-chain makes the next call throw. */
module Chains {
  import opened Outcomes
  import opened Options

  /** The functions of a chain, as Java references that may be null. */
  type Steps<!T> = seq<Nullable<T -> Nullable<Option<T>>>>

  /** No function reference in the chain is null. */
  predicate AllPresent<T>(fs: Steps<T>) {
    forall i :: 0 <= i < |fs| ==> fs[i].NonNull?
  }

  /** One more `.andThen(f)` on what the chain has produced so far. */
  function Then<T>(soFar: Outcome<Nullable<Option<T>>>, f: Nullable<T -> Nullable<Option<T>>>): (r: Outcome<Nullable<Option<T>>>)
    ensures soFar.Fail? ==> r == soFar
    ensures soFar == Ok(Null) ==> r.Fail? && r.kind == NullDereference
    ensures soFar.Ok? && soFar.value.NonNull? ==> r == AndThen(soFar.value.x, f)
  {
    match soFar
    case Fail(k, m) => Fail(k, m)
    case Ok(Null) => Fail(NullDereference, "")
    case Ok(NonNull(p)) => AndThen(p, f)
  }

  /** `.andThen(fs[0]).andThen(fs[1])...` applied to what the chain has
      produced so far. An exception is final, and `None` passes through every
      further step untouched. */
  function Run<T>(soFar: Outcome<Nullable<Option<T>>>, fs: Steps<T>): (r: Outcome<Nullable<Option<T>>>)
    ensures soFar.Fail? ==> r == soFar
    ensures soFar == Ok(NonNull(None)) && AllPresent(fs) ==> r == soFar
    decreases |fs|
  {
    if |fs| == 0 then soFar
    else
      assert AllPresent(fs) ==> AllPresent(fs[1..]) by {
        if AllPresent(fs) {
          forall i | 0 <= i < |fs[1..]| ensures fs[1..][i].NonNull? {
            assert fs[1..][i] == fs[i + 1];
          }
        }
      }
      Run(Then(soFar, fs[0]), fs[1..])
  }

  /** The whole chain started from the option `o`. */
  function Chain<T>(o: Option<T>, fs: Steps<T>): (r: Outcome<Nullable<Option<T>>>) {
    Run(Ok(NonNull(o)), fs)
  }

  /** Splitting a chain: running `fs + gs` is running `fs` and then `gs` on
      its result. */
  lemma {:induction false} RunAppend<T>(soFar: Outcome<Nullable<Option<T>>>, fs: Steps<T>, gs: Steps<T>)
    ensures Run(soFar, fs + gs) == Run(Run(soFar, fs), gs)
    decreases |fs|
  {
    if |fs| == 0 {
      assert fs + gs == gs;
    } else {
      assert (fs + gs)[0] == fs[0];
      assert (fs + gs)[1..] == fs[1..] + gs;
      RunAppend(Then(soFar, fs[0]), fs[1..], gs);
    }
  }

  /** A chain that reaches `None` at some point ends in `None`, whatever
      non-null functions come after. */
  lemma NoneIsAbsorbing<T>(o: Option<T>, fs: Steps<T>, gs: Steps<T>)
    requires Chain(o, fs) == Ok(NonNull(None))
    requires AllPresent(gs)
    ensures Chain(o, fs + gs) == Ok(NonNull(None))
  {
    RunAppend(Ok(NonNull(o)), fs, gs);
  }

  /** A chain started from `None` is `None`. */
  lemma ChainFromNone<T>(fs: Steps<T>)
    requires AllPresent(fs)
    ensures Chain(None, fs) == Ok(NonNull(None))
  {
  }

  /** `f` is a non-null function that returns `Some` on every input. */
  ghost predicate AlwaysSome<T(!new)>(f: Nullable<T -> Nullable<Option<T>>>) {
    f.NonNull? && forall x :: f.x(x).NonNull? && IsSome(f.x(x).x)
  }

  /** A chain whose every function always returns `Some` never becomes `None`
      and never throws. */
  lemma {:induction false} AlwaysSomeStaysSome<T(!new)>(soFar: Outcome<Nullable<Option<T>>>, fs: Steps<T>)
    requires soFar.Ok? && soFar.value.NonNull? && IsSome(soFar.value.x)
    requires forall i :: 0 <= i < |fs| ==> AlwaysSome(fs[i])
    ensures var r := Run(soFar, fs); r.Ok? && r.value.NonNull? && IsSome(r.value.x)
    decreases |fs|
  {
    if |fs| > 0 {
      assert AlwaysSome(fs[0]);
      var next := Then(soFar, fs[0]);
      assert next == Ok(fs[0].x(soFar.value.x.value));
      forall i | 0 <= i < |fs[1..]| ensures AlwaysSome(fs[1..][i]) {
        assert fs[1..][i] == fs[i + 1];
      }
      AlwaysSomeStaysSome(next, fs[1..]);
    }
  }
}
