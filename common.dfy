/** Values shared by every part of the model: optional values, the HTTP error an
    endpoint raises, and the result of an endpoint that may raise one. */
module Common {

  /** A value that may be absent: a missing dictionary key, a `None`, a row that a
      query did not find. */
  datatype Option<+T> = None | Some(value: T)

  /** The status codes the endpoints raise through `HTTPException`. */
  const BadRequest: int := 400
  const Forbidden: int := 403
  const NotFound: int := 404
  const InternalServerError: int := 500

  /** An `HTTPException` as the caller of an endpoint sees it. */
  datatype HttpError = HttpError(status: int)

  /** What an endpoint hands back: its response, or the exception it raised. */
  datatype Result<+T> = Ok(value: T) | Err(error: HttpError)
}
