/** The optional value used for absent request fields and missing rows. */
module Wrappers {
  datatype Option<+T> = None | Some(value: T)
}

/**
 * The JSON envelope every route handler answers with: either the success
 * payload, or an HTTP status code with the `error` text of the body.
 */
module Http {
  datatype Response<+T> = Ok(value: T) | Err(status: int, message: string)

  const BadRequest := 400
  const Unauthorized := 401
  const NotFound := 404
}
