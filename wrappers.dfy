/** Optional values and results with an error case, used where the Kotlin code has
    nullable values or returns early after logging a problem. */
module Wrappers {

  datatype Option<+T> = None | Some(value: T)

  datatype Result<+R, +E> = Success(value: R) | Failure(error: E)
}
