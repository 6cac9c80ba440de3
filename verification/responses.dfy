/**
  Outcomes shared by every endpoint of the service: an optional value, and a
  response that is either a result or one of the service's failures. Each
  failure carries the HTTP status and the detail text the service rejects
  the request with.
 */
module Responses {

  datatype Option<+T> = None | Some(value: T)

  /** The ways a request is rejected. */
  datatype Failure =
    | UserExists          // register: the username is already a key of the store
    | InvalidCredentials  // login: unknown user or wrong password, deliberately one kind
    | InvalidToken        // any protected endpoint: the token does not authenticate anyone
    | EmptySequence       // max-value on an empty list: Python's max raises ValueError, the framework answers 500

  datatype Response<+T> = Ok(value: T) | Err(failure: Failure)

  /** HTTP status the framework sends for a failure. */
  function StatusCode(f: Failure): int
  {
    match f
    case UserExists => 400
    case InvalidCredentials => 401
    case InvalidToken => 401
    case EmptySequence => 500
  }

  /**
    The text of the rejection: the `detail` argument of the `HTTPException`
    for the first three. `EmptySequence` is no `HTTPException`: the unhandled
    `ValueError` gets the framework's plain-text 500 body.
   */
  function Detail(f: Failure): string
  {
    match f
    case UserExists => "El usuario ya existe"
    case InvalidCredentials => "Credenciales Inválidas"
    case InvalidToken => "Token inválido"
    case EmptySequence => "Internal Server Error"
  }
}
