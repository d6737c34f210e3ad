/** The result types handed back to callers: the error taxonomy and the
    success-or-error response. */
module Responses {
  import opened Jvm

  /** The coarse classification of a failed call. `Conflict` is returned by the
      status-code mapper but missing from the sealed class in the repository;
      it is declared here so that the mapper can be modelled. */
  datatype NetworkError =
    | BadRequest
    | Unauthorized
    | NotFound
    | Conflict
    | ServerError
    | Unknown(code: int)
    | Exception(exception: Throwable)
    | CustomServerError(serverErrorCode: int)

  /** `Success(data)`, or `Error(networkError, error)` where `error` is the
      decoded error body when there is one (`null` by default). */
  datatype NetworkResponse<+T, +E> =
    | Success(data: T)
    | Error(networkError: NetworkError, error: Option<E>)
}
