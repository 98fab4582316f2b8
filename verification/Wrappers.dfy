/** Option and Result, shared by every module. */
module Wrappers {
  datatype Option<+T> = None | Some(value: T)

  datatype Result<+T, +E> = Ok(value: T) | Err(error: E)

  /** `a.or(b)`: the first of the two that is present. */
  function Or<T>(a: Option<T>, b: Option<T>): Option<T> {
    if a.Some? then a else b
  }

  lemma Regroup<T>(x: seq<T>, y: seq<T>, z: seq<T>)
    ensures x + y + z == x + (y + z)
  {
  }

  lemma Associate<T>(w: seq<T>, x: seq<T>, y: seq<T>, z: seq<T>)
    ensures w + (x + y + z) == (w + x) + y + z
  {
  }
}
