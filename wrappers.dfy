/** Optional values and success/failure results, standing for TypeScript's
    `undefined`-able parameters and for the errors a promise rejects with. */
module Wrappers {

  datatype Option<+T> = None | Some(value: T)

  datatype Result<+R, +E> = Success(value: R) | Failure(error: E)
}
