/**
 * The controller's two kinds of reply: an error carrying an HTTP status and a
 * message (ApiError), and a success carrying a status, a payload and a message
 * (ApiResponse).
 */
module Api {
  datatype ApiError = ApiError(status: nat, message: string)

  datatype Result<+T> = Ok(value: T) | Err(error: ApiError)

  datatype Response<+T> =
    | Success(status: nat, data: T, message: string)
    | Failure(error: ApiError)
}
