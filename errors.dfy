/** The error taxonomy (RavenError.swift) and the errors a request can end with. */
module Errors {
  import opened Foundation

  /** The error a JSON decoder throws. */
  datatype DecodeError = DecodeError(description: string)

  /** RavenError. `responseError` carries the status code, as the default
      error hook passes it one. */
  datatype RavenError =
    | ResponseError(statusCode: StatusCode)
    | InvalidEndpoint
    | UnknownError
    | ParsingError(underlying: DecodeError)

  /** Any error a request ends with: one of Raven's own, a transport error
      passed through unmapped, or an error of the delegate's own making. */
  datatype Error =
    | FromRaven(ravenError: RavenError)
    | TransportError(description: string)
    | DelegateError(description: string)
}
