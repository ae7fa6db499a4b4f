/** JSON field values as the relay reads them, and JavaScript's `x || fallback`. */
module Values {

  /** A JSON object field: None stands for a missing key and for JSON null alike.
      Every test and `||` in the relay treats the two the same way; a field copied
      through unchanged would serialise them differently (null is written, an
      undefined field is dropped), which this type does not distinguish. */
  datatype Option<+T> = None | Some(value: T) {

    /** `x || []` for a field whose present values are all truthy (arrays, objects). */
    function GetOr(default: T): T {
      if Some? then value else default
    }
  }

  /** JavaScript truthiness of a field whose type has exactly one falsy value
      besides absence: "" for strings, 0 for numbers, false for booleans. */
  predicate Truthy<T(==)>(x: Option<T>, falsy: T) {
    x.Some? && x.value != falsy
  }

  /** JavaScript's `x || fallback` for such a field. */
  function OrElse<T(==)>(x: Option<T>, falsy: T, fallback: T): T {
    if Truthy(x, falsy) then x.value else fallback
  }
}
