/** Optional values, standing for the `undefined`/`null` cases of the front end. */
module Wrappers {

  datatype Option<+T> = None | Some(value: T)

  /** JavaScript truthiness of an optional number: `undefined` and `0` are falsy. */
  predicate TruthyInt(o: Option<int>)
  {
    o.Some? && o.value != 0
  }

  /** `o || 0` for an optional number. */
  function OrZero(o: Option<int>): (r: int)
    ensures TruthyInt(o) ==> r == o.value
    ensures !TruthyInt(o) ==> r == 0
  {
    if o.Some? then o.value else 0
  }

  /** JavaScript truthiness of an optional string: `null`, `undefined` and `""` are falsy. */
  predicate TruthyString(o: Option<string>)
  {
    o.Some? && o.value != ""
  }
}
