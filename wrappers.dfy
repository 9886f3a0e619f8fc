/** Small shared helpers: an Option type standing for Python's None, and min. */
module Wrappers {

  /** `None` stands for Python's None (or a missing dictionary key). */
  datatype Option<+T> = None | Some(value: T)

  function Min(a: int, b: int): (m: int)
    ensures m <= a && m <= b
    ensures m == a || m == b
  {
    if a <= b then a else b
  }
}
