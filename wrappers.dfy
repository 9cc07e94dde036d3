/**
 * Optional values, used for Python's `None` and for operations that raise,
 * and the integer minimum and maximum shared by the array and pointer
 * arithmetic.
 */
module Wrappers {
  datatype Option<+T> = None | Some(value: T)

  function Min(x: int, y: int): int { if x < y then x else y }
  function Max(x: int, y: int): int { if x < y then y else x }
}
