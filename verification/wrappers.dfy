/** Shared vocabulary: the outcome of a validating constructor or setter,
    and the closed percentage range every validated field is checked against. */
module Wrappers {

  /** Either the constructed (or updated) value, or the
      `IllegalArgumentException` that a Kotlin `require` throws. */
  datatype Result<+T> = Success(value: T) | IllegalArgument

  /** `value in 0.0..100.0`: both bounds are inclusive. */
  predicate InRange(v: real) {
    0.0 <= v <= 100.0
  }
}
