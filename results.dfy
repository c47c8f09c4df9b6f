/** Optional values and success-or-error results, used for parsing and for
    the generator whose random draw can fail. */
module Results {

  datatype Option<+T> = None | Some(value: T)

  datatype Result<+R, +E> = Success(value: R) | Failure(error: E)
}
