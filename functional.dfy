/**
 * The two value containers the conversion framework is built on: an optional
 * value (Maybe) and a validation result (Validation) that holds either a value
 * or a non-empty, ordered list of error messages.
 */
module Functional {

  /** An optional native value. */
  datatype Maybe<+T> = Nothing | Just(value: T)

  /** The error state of a validation never holds an empty list of messages. */
  type Errors = s: seq<string> | |s| > 0 witness ["invalid"]

  /** Either a valid value or the errors that explain why there is none. */
  datatype Validation<+T> = Valid(value: T) | Invalid(errors: Errors)

  /** Wraps a value as valid. */
  function Pure<T>(value: T): Validation<T>
  {
    Valid(value)
  }

  /** Applies `f` to a valid value; passes errors through unchanged. */
  function Map<T, U>(v: Validation<T>, f: T -> U): Validation<U>
  {
    match v
    case Valid(x) => Valid(f(x))
    case Invalid(e) => Invalid(e)
  }
}
