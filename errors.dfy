/** The exceptions the services throw. */
module Errors {

  /**
   * NotFound, Unauthorized, BadRequest and Forbidden are the framework's HTTP exceptions;
   * QueryFailed is a raw store error carrying its SQLSTATE code (23505 is a unique violation);
   * Config is a plain `Error` thrown at start-up; MalformedHash is what argon2.verify throws
   * when the stored value is missing or is not an encoded hash.
   */
  datatype Error =
    | NotFound(message: string)
    | Unauthorized(message: string)
    | BadRequest(message: string)
    | Forbidden(message: string)
    | QueryFailed(code: string)
    | Config(message: string)
    | MalformedHash

  /** SQLSTATE code the store reports when a unique column would repeat a value. */
  const UniqueViolation: string := "23505"
}
