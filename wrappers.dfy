/** Small shared definitions: the optional value the source writes as `T | null` or `T | undefined`, and `Math.min`. */
module Wrappers {
  datatype Option<+T> = None | Some(value: T)

  /** The smaller of two integers. */
  function Min(a: int, b: int): int {
    if a <= b then a else b
  }
}
