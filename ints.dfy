/** Go's fixed-width signed integer types, as subsets of the unbounded integers. */
module Ints {
  const TwoTo63: int := 0x8000_0000_0000_0000

  /** Go's `int32`. */
  type Int32 = i: int | -0x8000_0000 <= i < 0x8000_0000

  /** Go's `int64`. */
  type Int64 = i: int | -0x8000_0000_0000_0000 <= i < 0x8000_0000_0000_0000
}
