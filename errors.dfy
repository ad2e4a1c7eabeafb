/**
 * The error values of the oauth2/errors package and its `Response` record, as the
 * server core sees them. The package itself (its description and status tables) is not
 * part of this model: the two tables are carried by the server as data.
 */
module Errors {
  import opened Wrappers

  datatype Error =
    // protocol errors of section 4.1.2.1 and 5.2 of RFC 6749 and section 4.4.1 of RFC 7636
    | InvalidRequest
    | UnauthorizedClient
    | AccessDenied
    | UnsupportedResponseType
    | InvalidScope
    | ServerError
    | TemporarilyUnavailable
    | InvalidClient
    | InvalidGrant
    | UnsupportedGrantType
    | CodeChallengeRequired
    | UnsupportedCodeChallengeMethod
    | InvalidCodeChallengeLen
    // internal errors reported by the manager and the token store
    | InvalidRedirectURI
    | InvalidAuthorizeCode
    | InvalidAccessToken
    | InvalidRefreshToken
    | ExpiredAccessToken
    | ExpiredRefreshToken
    | MissingCodeVerifier
    | MissingCodeChallenge
    | InvalidCodeChallenge
    // any other error value a hook, the manager or the URL parser may return
    | Other(message: string)

  /**
   * `err.Error()`: the text placed under the "error" key of an error response. The texts
   * are assumed for the errors package: the protocol error codes of RFC 6749 (sections
   * 4.1.2.1 and 5.2), "invalid_request" for the PKCE errors, short messages otherwise.
   */
  function ErrorText(e: Error): string
  {
    match e
    case InvalidRequest => "invalid_request"
    case UnauthorizedClient => "unauthorized_client"
    case AccessDenied => "access_denied"
    case UnsupportedResponseType => "unsupported_response_type"
    case InvalidScope => "invalid_scope"
    case ServerError => "server_error"
    case TemporarilyUnavailable => "temporarily_unavailable"
    case InvalidClient => "invalid_client"
    case InvalidGrant => "invalid_grant"
    case UnsupportedGrantType => "unsupported_grant_type"
    case CodeChallengeRequired => "invalid_request"
    case UnsupportedCodeChallengeMethod => "invalid_request"
    case InvalidCodeChallengeLen => "invalid_request"
    case InvalidRedirectURI => "invalid redirect uri"
    case InvalidAuthorizeCode => "invalid authorize code"
    case InvalidAccessToken => "invalid access token"
    case InvalidRefreshToken => "invalid refresh token"
    case ExpiredAccessToken => "expired access token"
    case ExpiredRefreshToken => "expired refresh token"
    case MissingCodeVerifier => "missing code verifier"
    case MissingCodeChallenge => "missing code challenge"
    case InvalidCodeChallenge => "invalid code challenge"
    case Other(m) => m
  }

  /** HTTP headers of a response, one value per name. */
  type Header = map<string, string>

  /** errors.Response: the error record that GetErrorData fills and hands to the hook. */
  datatype ErrorResponse = ErrorResponse(
    error: Option<Error>,
    errorCode: int,
    description: string,
    uri: string,
    statusCode: int,
    header: Header)

  /** The zero value of errors.Response (`var re errors.Response`). */
  const EmptyResponse := ErrorResponse(None, 0, "", "", 0, map[])

  /** errors.Descriptions and errors.StatusCodes. */
  datatype ErrorTables = ErrorTables(descriptions: map<Error, string>, statusCodes: map<Error, int>)

  /** A Go map read: the zero value when the key is absent. */
  function DescriptionOf(t: ErrorTables, e: Error): string
  {
    if e in t.descriptions then t.descriptions[e] else ""
  }

  function StatusCodeOf(t: ErrorTables, e: Error): int
  {
    if e in t.statusCodes then t.statusCodes[e] else 0
  }
}
