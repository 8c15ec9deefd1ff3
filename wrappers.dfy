/** Optional values and outcomes that may fail: a Java `null` reference becomes `None`,
    a thrown domain exception becomes `Failure`. */
module Wrappers {

  datatype Option<+T> = None | Some(value: T)

  datatype Result<+T, +E> = Success(value: T) | Failure(error: E)
}
