/** Python's `None`-or-value, as an Option, and the `min` that `zip` uses
    for the length of its result. */
module Wrappers {

  datatype Option<+T> = None | Some(value: T)

  /** The smaller of two counts: the length of `zip(a, b)` for lists of
      lengths a and b. */
  function Min(a: int, b: int): (r: int)
    ensures r <= a && r <= b
    ensures r == a || r == b
  {
    if a < b then a else b
  }
}
