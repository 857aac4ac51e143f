/** Option and Result values standing for Python's None and for raised exceptions. */
module Wrappers {

  datatype Option<+T> = None | Some(value: T)

  /** `Failure` carries the message an exception would have carried (`str(e)`). */
  datatype Result<+T> = Success(value: T) | Failure(error: string)
}
