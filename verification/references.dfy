/** The mutable single-slot box through which `getOrInsert`, `getOrInsertWith`
    and `take` replace an option in place. */
module References {
  import opened Outcomes

  /** A box with one field. Like the Java class it stores whatever it is
      given, null included. */
  class ReferenceHandler<V> {
    var value: Nullable<V>

    /** Stores the initial value verbatim. */
    constructor(initial: Nullable<V>)
      ensures value == initial
    {
      value := initial;
    }

    /** Replaces the content; the box has no other state to disturb. */
    method Set(newValue: Nullable<V>)
      modifies this
      ensures value == newValue
    {
      value := newValue;
    }

    /** Reads the content; having no `modifies` clause, it changes nothing. */
    method Get() returns (r: Nullable<V>)
      ensures r == value
    {
      r := value;
    }
  }

  /** Reading a box right after writing it gives back what was written. */
  method SetThenGet<V>(h: ReferenceHandler<V>, x: Nullable<V>) returns (r: Nullable<V>)
    modifies h
    ensures r == x && h.value == x
  {
    h.Set(x);
    r := h.Get();
  }
}
