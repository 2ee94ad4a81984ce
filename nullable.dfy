/** JavaScript `null` and truthiness, as the controllers use them for their nullable fields. */
module Nullable {

  /** A field that is either `null` (None) or holds a value. */
  datatype Option<T> = None | Some(value: T)

  /** `if (x)` on a nullable number: false for `null` and for 0 (NaN is not modelled). */
  predicate IsTruthy(x: Option<real>) {
    x.Some? && x.value != 0.0
  }

  /** `if (t)` on a nullable millisecond timestamp. */
  predicate IsTruthyTime(t: Option<int>) {
    t.Some? && t.value != 0
  }
}
