/** Failure-compatible wrappers shared by every module: `null`/`undefined` become `None`,
    a thrown error becomes `Failure`. */
module Common {

  datatype Option<+T> = None | Some(value: T)

  datatype Result<+R, +E> = Success(value: R) | Failure(error: E)
}
