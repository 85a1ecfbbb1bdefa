/** The error values the core produces or passes through: the cases of the
    source's own error enums, plus opaque errors raised by Foundation. */
module Errors {

  datatype Error =
    // An error from a Foundation call (URLSession, JSONSerialization,
    // JSONEncoder/JSONDecoder); the model does not look inside it.
    | SystemError(code: int)
    // SampleHTTPClient.Failures
    | Timeout
    | NoHTTPResponse
    | NoData
    | CannotDecodeData
    // SampleHTTPClient.LoginFailures
    | InvalidCredentials
    | UnknownLoginFailure
    | NoBearerToken
    | UserAlreadyExists
    | CannotCreateUser
    // FeedController.WallFailures
    | UnableToReadWallList(cause: Error)
    | UnableToConvertWallCreateModelToJSON(cause: Error)
    | UnableToDecodeJSONasWallResponse(cause: Error)
}
