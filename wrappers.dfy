/** Option and Result, used for the source's null values and exceptions. */
module Wrappers {

  datatype Option<+T> = None | Some(value: T)

  datatype Result<+T, +E> = Ok(value: T) | Err(error: E)

  /** A list built in front of a computation that may fail. */
  function PrependOk<T, E>(xs: seq<T>, r: Result<seq<T>, E>): Result<seq<T>, E>
  {
    match r
    case Ok(ys) => Ok(xs + ys)
    case Err(e) => Err(e)
  }

  lemma PrependOkNil<T, E>(r: Result<seq<T>, E>)
    ensures PrependOk([], r) == r
  {
    if r.Ok? {
      assert [] + r.value == r.value;
    }
  }

  lemma PrependOkAppend<T, E>(xs: seq<T>, ys: seq<T>, r: Result<seq<T>, E>)
    ensures PrependOk(xs, PrependOk(ys, r)) == PrependOk(xs + ys, r)
  {
    if r.Ok? {
      assert xs + (ys + r.value) == (xs + ys) + r.value;
    }
  }
}
