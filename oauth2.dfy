/**
 * The vocabulary of the oauth2 package that the server core uses: the response, grant and
 * code-challenge-method constants, the server configuration, the token generation request,
 * the issued token, and the server itself with its manager and its hooks. The manager and
 * every hook are oracles: functions that return a value or an error.
 */
module OAuth2 {
  import opened Wrappers
  import opened Errors
  import opened Http

  type ResponseType = string
  type GrantType = string
  type CodeChallengeMethod = string

  /** An instant (time.Time); how it is rendered as text is not modelled. */
  type Time = int

  const Code: ResponseType := "code"
  const Token: ResponseType := "token"

  const AuthorizationCode: GrantType := "authorization_code"
  const PasswordCredentials: GrantType := "password"
  const ClientCredentials: GrantType := "client_credentials"
  const Refreshing: GrantType := "refresh_token"
  const Implicit: GrantType := "__implicit"

  const CodeChallengePlain: CodeChallengeMethod := "plain"

  /** Nanoseconds per second: a time.Duration counts nanoseconds. */
  const NanosPerSecond := 1_000_000_000

  datatype Config = Config(
    tokenType: string,
    allowGetAccessRequest: bool,
    forcePKCE: bool,
    allowedResponseTypes: seq<ResponseType>,
    allowedGrantTypes: seq<GrantType>,
    allowedCodeChallengeMethods: seq<CodeChallengeMethod>)

  /** The validated authorize request, without the embedded *http.Request. */
  datatype AuthorizeRequest = AuthorizeRequest(
    responseType: ResponseType,
    clientID: string,
    scope: string,
    redirectURI: string,
    state: string,
    userID: string,
    codeChallenge: string,
    codeChallengeMethod: CodeChallengeMethod,
    accessTokenExp: int)

  /** oauth2.TokenGenerateRequest, without the embedded *http.Request. */
  datatype TokenGenerateRequest = TokenGenerateRequest(
    clientID: string,
    clientSecret: string,
    userID: string,
    redirectURI: string,
    scope: string,
    code: string,
    codeChallenge: string,
    codeChallengeMethod: CodeChallengeMethod,
    refresh: string,
    codeVerifier: string,
    accessTokenExp: int)

  /** The zero TokenGenerateRequest, from which the server fills in fields. */
  const EmptyTokenRequest := TokenGenerateRequest("", "", "", "", "", "", "", "", "", "", 0)

  /** oauth2.TokenInfo as read through its getters; `accessExpiresIn` is a duration in nanoseconds. */
  datatype TokenInfo = TokenInfo(
    clientID: string,
    userID: string,
    redirectURI: string,
    scope: string,
    code: string,
    access: string,
    accessCreateAt: Time,
    accessExpiresIn: int,
    refresh: string)

  /** A value of a response map (`map[string]interface{}`). */
  datatype Value = Str(s: string) | Int(i: int)

  type Data = map<string, Value>

  /** The operations of oauth2.Manager that the server calls. */
  datatype Manager = Manager(
    generateAuthToken: (ResponseType, TokenGenerateRequest) -> Result<TokenInfo, Error>,
    generateAccessToken: (GrantType, TokenGenerateRequest) -> Result<TokenInfo, Error>,
    refreshAccessToken: TokenGenerateRequest -> Result<TokenInfo, Error>,
    loadRefreshToken: string -> Result<TokenInfo, Error>,
    clientDomain: string -> Result<string, Error>)

  /** The handler fields of Server; `None` is a nil handler. */
  datatype Hooks = Hooks(
    clientInfo: Request -> Result<(string, string), Error>,
    clientAuthorized: Option<(string, GrantType) -> Result<bool, Error>>,
    clientScope: Option<TokenGenerateRequest -> Result<bool, Error>>,
    passwordAuthorization: (string, string) -> Result<string, Error>,
    refreshingValidation: Option<TokenInfo -> Result<bool, Error>>,
    refreshingScope: Option<(TokenGenerateRequest, string) -> Result<bool, Error>>,
    responseError: Option<ErrorResponse -> ErrorResponse>,
    internalError: Option<Error -> Option<ErrorResponse>>,
    extensionFields: Option<TokenInfo -> Data>,
    accessTokenExp: Option<Request -> Result<int, Error>>,
    authorizeScope: Option<Request -> Result<string, Error>>)

  /**
   * The authorization server. `parseURL` stands for url.Parse and `errors` for the
   * description and status tables of the errors package.
   */
  datatype Server = Server(
    config: Config,
    manager: Manager,
    hooks: Hooks,
    errors: ErrorTables,
    parseURL: string -> Result<URL, Error>)
}
