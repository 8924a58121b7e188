/** Result values shared by the services: the success value or the HTTP exception a service throws. */
module Outcomes {

  datatype Option<T> = None | Some(value: T)

  /** What a service call ends with. Each failure carries the message the service puts in its exception;
      the variants are the Nest exceptions the services throw (404, 409, 401, 500). */
  datatype Result<T> =
    | Ok(value: T)
    | NotFound(msg: string)
    | Conflict(msg: string)
    | Unauthorized(msg: string)
    | InternalError(msg: string)

  /** JavaScript truthiness of an optional string: present and not empty. */
  predicate Given(s: Option<string>) {
    s.Some? && s.value != ""
  }

  /** Nest's body for an exception the service does not catch (a TypeError, a failed query). */
  const UncaughtError := "Internal server error"
}
