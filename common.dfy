/** Small shared vocabulary: an optional value, used for JavaScript's `undefined` and `NaN`. */
module Common {

  datatype Option<+T> = None | Some(value: T)

  function Min(a: int, b: int): int
  {
    if a <= b then a else b
  }
}
