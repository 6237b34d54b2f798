/** Small failure-carrying datatypes shared by the model. */
module Wrappers {

  /** An optional value: a filter that may be absent, a decode that may fail. */
  datatype Option<+T> = None | Some(value: T)

  /** The outcome of a call that may fail with an error of type E. */
  datatype Result<+T, +E> = Ok(value: T) | Err(error: E)

  /** The outcome of a check that returns nothing on success (`Result<()>`). */
  datatype Outcome<+E> = Pass | Fail(error: E)

  /** Applies `f` to the value of `o`, if there is one. */
  function MapOption<T, U>(o: Option<T>, f: T -> U): Option<U> {
    match o
    case None => None
    case Some(v) => Some(f(v))
  }
}
