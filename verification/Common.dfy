/** Small datatypes shared by every module. */
module Common {
  /** A pointer that may be NULL, or a value that may be missing. */
  datatype Option<+T> = None | Some(value: T)

  type byte = x: int | 0 <= x < 256

  function Min(a: int, b: int): int {
    if a <= b then a else b
  }
}
