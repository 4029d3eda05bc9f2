/** Optional values and results, standing in for Python's `None` and for raised exceptions. */
module Wrappers {

  datatype Option<+T> = None | Some(value: T)

  datatype Result<+T, +E> = Success(value: T) | Failure(error: E)

  /** The Python exceptions that the source raises by mistake. */
  datatype Raised = NameError(name: string) | UnboundLocalError(name: string)
}
