/** Plain wrappers shared by the model: Ruby's `nil`, a check that passes
    or raises, and a call that returns or raises. */
module Wrappers {

  /** `None` stands for Ruby's `nil`. */
  datatype Option<+T> = None | Some(value: T) {

    /** Ruby's `x || fallback` when `x` is nil or a value. */
    function Or(fallback: Option<T>): Option<T>
    {
      if Some? then this else fallback
    }
  }

  /** A check that either passes or raises `error`. */
  datatype Outcome<+E> = Pass | Fail(error: E)

  /** A call that either returns `value` or raises `error`. */
  datatype Result<+T, +E> = Ok(value: T) | Err(error: E)
}
