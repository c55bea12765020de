/** The shapes a route handler replies with: a status code and either a
    success body or the `{error, message}` error body. */
module Http {

  const STATUS_OK: nat := 200
  const STATUS_CREATED: nat := 201
  const STATUS_NOT_FOUND: nat := 404

  datatype ErrorBody = ErrorBody(error: string, message: string)

  datatype Response<T> =
    | Ok(status: nat, value: T)
    | Failure(status: nat, body: ErrorBody)
}
