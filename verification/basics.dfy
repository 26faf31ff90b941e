/** Small shared vocabulary: an optional value and the minimum of two integers. */
module Basics {

  /** A value that may be absent; stands in for Python's `None` and for dictionary keys that may be missing. */
  datatype Option<+T> = None | Some(value: T)

  function Min(a: int, b: int): (m: int)
    ensures m <= a && m <= b
    ensures m == a || m == b
  {
    if a <= b then a else b
  }
}
