/** Outcomes of the service's operations: a nullable value, the errors the
    service throws (`CustomError.badRequest`, `.unauthorized`, `.internalServer`
    and a plain `Error`), and a value-or-error result. */
module Outcomes {

  datatype Option<+T> = None | Some(value: T)

  /** A thrown error. The three CustomError kinds carry the HTTP status the
      controller answers with (400, 401, 500); `Plain` is an `Error` that is not
      a CustomError, such as one raised by the persistence layer. */
  datatype Failure =
    | BadRequest(message: string)
    | Unauthorized(message: string)
    | InternalServer(message: string)
    | Plain(message: string)

  datatype Result<+T> = Ok(value: T) | Err(failure: Failure)

  /** The text `${error}` of a thrown error: `Error.prototype.toString`, that is
      the error's name ("Error") followed by ": " and its message. */
  function Describe(f: Failure): (s: string)
    ensures |s| == |f.message| + 7 && s[7..] == f.message
  {
    "Error: " + f.message
  }

  /** `catch (error) { throw CustomError.internalServer(`${error}`) }`: whatever
      was thrown inside the `try` leaves as an internal-server error whose
      message is the text of the original one. */
  function Rewrap(f: Failure): (g: Failure)
    ensures g.InternalServer? && |g.message| == |f.message| + 7 && g.message[7..] == f.message
  {
    InternalServer(Describe(f))
  }
}
