/** Optional values and results, used for the absent-or-present fields of the
    JavaScript records and for the error paths of the operations. */
module Wrappers {

  /** `None` stands for JavaScript's `undefined` and `null` alike, for the
      fields the component reads only with `??`, `?.` and truthiness, which
      treat the two the same. A value compared with `===` needs its own type
      that keeps them apart. */
  datatype Option<+T> = None | Some(value: T) {

    /** `this ?? fallback`: the fallback is taken only when this value is absent. */
    function OrElse(fallback: Option<T>): Option<T> {
      if Some? then this else fallback
    }
  }

  /** The outcome of an operation that either succeeds with a value or is
      rejected with an error. */
  datatype Result<+T, +E> = Ok(value: T) | Err(error: E)
}
