/** Shapes shared by the services: an optional value, the ways a call fails, and a result. */
module Results {
  datatype Option<+T> = None | Some(value: T)

  /** How a service call fails. `ApiError` is the application's own error, carrying the HTTP
      status the HTTP layer answers with; `Thrown` is any other error raised on the way (a plain
      `Error` thrown by a service, or an error of the JWT library). */
  datatype Error = ApiError(status: int, message: string) | Thrown(message: string)

  datatype Result<+T> = Ok(value: T) | Err(error: Error)

  // The HTTP statuses the core raises.
  const Unauthorized: int := 401
  const NotFound: int := 404
  const InternalServerError: int := 500
}
