/** Option and Result, standing for Python's None and for raised exceptions. */
module Wrappers {

  datatype Option<+T> = None | Some(value: T)

  datatype Result<+T, +E> = Success(value: T) | Failure(error: E)

  /** Where an exception was caught and re-raised as `customException`. */
  datatype Site = Retrieval | Generation

  /** A Python exception: one raised by a collaborator (its message), a
      `customException` that wraps another one at a given site, or the
      `StopIteration` of a graph node that finds no user message. */
  datatype Error = Raised(message: string) | Wrapped(site: Site, cause: Error) | NoUserMessage
}
