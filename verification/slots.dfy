/** The slot-mutating combinators `getOrInsert`, `getOrInsertWith` and `take`.

    The caller is expected to hand in a `ReferenceHandler` that holds the
    receiver itself, but nothing enforces it, so the receiver and the handler's
    content are separate inputs here. Each combinator is given twice: as a pure
    step (what it returns, and what the handler holds afterwards) and as a
    method on a real handler, proved to make exactly that step. */
module Slots {
  import opened Outcomes
  import opened Options
  import opened References

  /** The handler argument as a combinator sees it: a null reference, or a
      handler whose field currently holds `held`. */
  datatype SlotView<T> = NullHandler | Handler(held: Nullable<Option<T>>)

  /** A successful call: the value returned and the handler's content after. */
  datatype Step<X, T> = Step(result: X, after: Nullable<Option<T>>)

  const HandlerNullMessage := "`option` cannot be null."
  const InsertedValueNullMessage := "`value` cannot be null."
  const SupplierNullMessage := "`function` cannot be null."
  const SupplierResultNullMessage := "`function` result cannot be null."

  /* ----- Pure steps ----- */

  /** `getOrInsert(option, value)`. Both variants return the argument; only
      `None` writes `Some(value)` into the handler. */
  function GetOrInsert<T>(o: Option<T>, slot: SlotView<T>, value: Nullable<T>): (r: Outcome<Step<T, T>>)
    ensures slot.NullHandler? ==> r == Fail(NullArgument, HandlerNullMessage)
    ensures slot.Handler? && value.Null? ==> r == Fail(NullArgument, InsertedValueNullMessage)
    ensures slot.Handler? && value.NonNull? ==> r.Ok? && r.value.result == value.x
    ensures slot.Handler? && value.NonNull? && IsNone(o) ==> r.Ok? && r.value.after == NonNull(Some(value.x))
    ensures slot.Handler? && IsSome(o) && r.Ok? ==> r.value.after == slot.held
  {
    match o
    case Some(_) =>
      if slot.NullHandler? then Fail(NullArgument, HandlerNullMessage)
      else
        var v :- RequireNonNull(value, InsertedValueNullMessage);
        Ok(Step(v, slot.held))
    case None =>
      if slot.NullHandler? then Fail(NullArgument, HandlerNullMessage)
      else
        var v :- RequireNonNull(value, InsertedValueNullMessage);
        Ok(Step(v, NonNull(Some(v))))
  }

  /** `getOrInsertWith(option, function)`. The supplier runs on both
      variants; `Some` returns its own value and leaves the handler alone,
      `None` writes `Some` of the supplied value and returns that value. */
  function GetOrInsertWith<T>(o: Option<T>, slot: SlotView<T>, supplier: Nullable<() -> Nullable<T>>): (r: Outcome<Step<T, T>>)
    ensures slot.NullHandler? ==> r == Fail(NullArgument, HandlerNullMessage)
    ensures slot.Handler? && supplier.Null? ==> r == Fail(NullArgument, SupplierNullMessage)
    ensures slot.Handler? && supplier.NonNull? && supplier.x().Null? ==>
              r == Fail(NullArgument, SupplierResultNullMessage)
    ensures slot.Handler? && supplier.NonNull? && supplier.x().NonNull? && IsSome(o) ==>
              r == Ok(Step(o.value, slot.held))
    ensures slot.Handler? && supplier.NonNull? && supplier.x().NonNull? && IsNone(o) ==>
              r == GetOrInsert(o, slot, supplier.x())
  {
    match o
    case Some(v) =>
      if slot.NullHandler? then Fail(NullArgument, HandlerNullMessage)
      else
        var s :- RequireNonNull(supplier, SupplierNullMessage);
        var _ :- RequireNonNull(s(), SupplierResultNullMessage);
        Ok(Step(v, slot.held))
    case None =>
      if slot.NullHandler? then Fail(NullArgument, HandlerNullMessage)
      else
        var s :- RequireNonNull(supplier, SupplierNullMessage);
        var x :- RequireNonNull(s(), SupplierResultNullMessage);
        Ok(Step(x, NonNull(Some(x))))
  }

  /** `take(option)`. `None` returns itself and leaves the handler alone.
      `Some` ignores its own value: it unwraps whatever the handler holds,
      empties the handler, and returns `Some` of what it read. */
  function Take<T>(o: Option<T>, slot: SlotView<T>): (r: Outcome<Step<Option<T>, T>>)
    ensures slot.NullHandler? ==> r == Fail(NullArgument, HandlerNullMessage)
    ensures slot.Handler? && IsNone(o) ==> r == Ok(Step(o, slot.held))
    ensures slot.Handler? && IsSome(o) && slot.held.Null? ==> r.Fail? && r.kind == NullDereference
    ensures slot.Handler? && IsSome(o) && slot.held.NonNull? ==>
              match Unwrap(slot.held.x)
              case Ok(v) => r == Ok(Step(Some(v), NonNull(None)))
              case Fail(k, m) => r == Fail(k, m)
  {
    match o
    case Some(_) =>
      if slot.NullHandler? then Fail(NullArgument, HandlerNullMessage)
      else if slot.held.Null? then Fail(NullDereference, "")
      else
        var v :- Unwrap(slot.held.x);
        Ok(Step(Some(v), NonNull(None)))
    case None =>
      if slot.NullHandler? then Fail(NullArgument, HandlerNullMessage)
      else Ok(Step(o, slot.held))
  }

  /** A method call on a handler made the step `step`: on success it returned
      the step's result and left the step's content; on failure it raised the
      same exception and left the handler as it was. */
  ghost predicate Commits<X, T>(step: Outcome<Step<X, T>>, r: Outcome<X>,
                                before: Nullable<Option<T>>, after: Nullable<Option<T>>)
  {
    match step
    case Ok(s) => r == Ok(s.result) && after == s.after
    case Fail(k, m) => r == Fail(k, m) && after == before
  }

  /* ----- Laws, for the intended use: the handler holds the receiver ----- */

  /** On its own handler, `take` returns the receiver and leaves `None` behind,
      whichever the variant. */
  lemma TakeEmptiesOwnSlot<T>(o: Option<T>)
    ensures Take(o, Handler(NonNull(o))) == Ok(Step(o, NonNull(None)))
  {
  }

  /** Taking twice: the second `take`, on the emptied handler, returns `None`
      and changes nothing. */
  lemma TakeTwiceTakesNothing<T>(o: Option<T>)
    ensures Take(o, Handler(NonNull(o))).Ok?
    ensures var first := Take(o, Handler(NonNull(o))).value;
            first.after.NonNull?
            && Take(first.after.x, Handler(first.after)) == Ok(Step(None, NonNull(None)))
  {
    TakeEmptiesOwnSlot(o);
    TakeEmptiesOwnSlot<T>(None);
  }

  /** Inserting into an empty handler and then taking it back is a round trip:
      `take` yields `Some` of the inserted value and the handler is empty again. */
  lemma InsertThenTake<T>(v: T)
    ensures GetOrInsert(None, Handler(NonNull(None)), NonNull(v)) == Ok(Step(v, NonNull(Some(v))))
    ensures Take(Some(v), Handler(NonNull(Some(v)))) == Ok(Step(Some(v), NonNull(None)))
  {
  }

  /** On its own handler, `getOrInsert` always leaves a `Some` behind and
      returns the argument. A `None` receiver returns what the handler then
      holds; a `Some` receiver keeps its own content, so whenever the argument
      differs from the contained value, the returned value is not the one left
      in the handler. */
  lemma GetOrInsertOwnSlot<T>(o: Option<T>, v: T)
    ensures GetOrInsert(o, Handler(NonNull(o)), NonNull(v)).Ok?
    ensures var s := GetOrInsert(o, Handler(NonNull(o)), NonNull(v)).value;
            s.result == v
            && s.after == NonNull(if IsSome(o) then o else Some(v))
    ensures var s := GetOrInsert(o, Handler(NonNull(o)), NonNull(v)).value;
            IsSome(o) && o.value != v ==> s.after != NonNull(Some(s.result))
  {
  }

  /** `getOrInsertWith` with a supplier of `v` agrees with `getOrInsert(v)` on
      `None`; on `Some` it returns the contained value instead of `v`. */
  lemma GetOrInsertWithConstant<T>(o: Option<T>, held: Nullable<Option<T>>, v: T)
    ensures GetOrInsertWith(o, Handler(held), NonNull(() => NonNull(v)))
            == if IsNone(o) then GetOrInsert(o, Handler(held), NonNull(v))
               else Ok(Step(o.value, held))
  {
  }

  /* ----- The same combinators on a real handler ----- */

  /** `getOrInsert(option, value)` on a handler. */
  method GetOrInsertInto<T>(o: Option<T>, handler: ReferenceHandler?<Option<T>>, value: Nullable<T>)
    returns (r: Outcome<T>)
    modifies handler
    ensures handler == null ==> r == Fail(NullArgument, HandlerNullMessage)
    ensures handler != null ==>
              Commits(GetOrInsert(o, Handler(old(handler.value)), value), r, old(handler.value), handler.value)
  {
    if handler == null {
      return Fail(NullArgument, HandlerNullMessage);
    }
    if value.Null? {
      return Fail(NullArgument, InsertedValueNullMessage);
    }
    match o
    case Some(_) =>
      r := Ok(value.x);
    case None =>
      handler.Set(NonNull(Some(value.x)));
      r := Ok(value.x);
  }

  /** `getOrInsertWith(option, function)` on a handler. */
  method GetOrInsertWithInto<T>(o: Option<T>, handler: ReferenceHandler?<Option<T>>,
                                supplier: Nullable<() -> Nullable<T>>)
    returns (r: Outcome<T>)
    modifies handler
    ensures handler == null ==> r == Fail(NullArgument, HandlerNullMessage)
    ensures handler != null ==>
              Commits(GetOrInsertWith(o, Handler(old(handler.value)), supplier), r,
                      old(handler.value), handler.value)
  {
    if handler == null {
      return Fail(NullArgument, HandlerNullMessage);
    }
    if supplier.Null? {
      return Fail(NullArgument, SupplierNullMessage);
    }
    var supplied := supplier.x();
    if supplied.Null? {
      return Fail(NullArgument, SupplierResultNullMessage);
    }
    match o
    case Some(v) =>
      r := Ok(v);
    case None =>
      handler.Set(NonNull(Some(supplied.x)));
      r := Ok(supplied.x);
  }

  /** `take(option)` on a handler. */
  method TakeFrom<T>(o: Option<T>, handler: ReferenceHandler?<Option<T>>) returns (r: Outcome<Option<T>>)
    modifies handler
    ensures handler == null ==> r == Fail(NullArgument, HandlerNullMessage)
    ensures handler != null ==>
              Commits(Take(o, Handler(old(handler.value))), r, old(handler.value), handler.value)
  {
    if handler == null {
      return Fail(NullArgument, HandlerNullMessage);
    }
    match o
    case None =>
      r := Ok(o);
    case Some(_) =>
      var held := handler.Get();
      if held.Null? {
        return Fail(NullDereference, "");
      }
      var contained := Unwrap(held.x);
      if contained.Fail? {
        return Fail(contained.kind, contained.msg);
      }
      handler.Set(NonNull(None));
      r := Ok(Some(contained.value));
  }
}
