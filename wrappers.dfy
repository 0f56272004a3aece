/** Option and Result values for the outcomes that the Java code expresses
    with null, an empty Mono or an error signal. */
module Wrappers {

  datatype Option<+T> = None | Some(value: T)

  datatype Result<+R, +E> = Success(value: R) | Failure(error: E)

  /** A step that yields no value but may fail (a `Mono<Void>`). */
  datatype Outcome<+E> = Pass | Fail(error: E)
}
