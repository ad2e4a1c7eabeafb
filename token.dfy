/**
 * The token endpoint: validation of a token request per grant type, the grant allow-list
 * and the translation of manager and hook errors, and HandleTokenRequest as far as it
 * builds the TokenInfo record for the ledger and the token response.
 */
module Token {
  import opened Wrappers
  import opened Errors
  import opened Http
  import opened OAuth2
  import opened Ledger
  import opened Responses

  const TokenInfoType := "TokenInfo"
  const Available := "Available"

  // ---------------------------------------------------------------- ValidationTokenRequest

  /** POST always, GET only when the configuration allows it. */
  predicate TokenMethodAllowed(cfg: Config, verb: string)
  {
    verb == "POST" || (verb == "GET" && cfg.allowGetAccessRequest)
  }

  /** ValidationTokenRequest: the method, the grant type, the client credentials, then what the grant needs. */
  function ValidationTokenRequest(srv: Server, r: Request): Result<(GrantType, TokenGenerateRequest), Error>
  {
    if !(r.verb == "POST" || (srv.config.allowGetAccessRequest && r.verb == "GET")) then Err(InvalidRequest)
    else
      var gt := FormValue(r, "grant_type");
      if gt == "" then Err(UnsupportedGrantType)
      else
        var client := srv.hooks.clientInfo(r);
        if client.Err? then Err(client.error)
        else
          var tgr := EmptyTokenRequest.(clientID := client.value.0, clientSecret := client.value.1);
          if gt == AuthorizationCode then
            var redirectURI := FormValue(r, "redirect_uri");
            var code := FormValue(r, "code");
            if redirectURI == "" || code == "" then Err(InvalidRequest)
            else
              var verifier := FormValue(r, "code_verifier");
              if srv.config.forcePKCE && verifier == "" then Err(InvalidRequest)
              else Ok((gt, tgr.(redirectURI := redirectURI, code := code, codeVerifier := verifier)))
          else if gt == PasswordCredentials then
            var username := FormValue(r, "username");
            var password := FormValue(r, "password");
            if username == "" || password == "" then Err(InvalidRequest)
            else
              var user := srv.hooks.passwordAuthorization(username, password);
              if user.Err? then Err(user.error)
              else if user.value == "" then Err(InvalidGrant)
              else Ok((gt, tgr.(scope := FormValue(r, "scope"), userID := user.value)))
          else if gt == ClientCredentials then
            Ok((gt, tgr.(scope := FormValue(r, "scope"))))
          else if gt == Refreshing then
            var refresh := FormValue(r, "refresh_token");
            if refresh == "" then Err(InvalidRequest)
            else Ok((gt, tgr.(refresh := refresh, scope := FormValue(r, "scope"))))
          else Ok((gt, tgr))
  }

  /** The client credentials, when the method and grant type pass. */
  function ClientRequest(srv: Server, r: Request): TokenGenerateRequest
    requires srv.hooks.clientInfo(r).Ok?
  {
    EmptyTokenRequest.(clientID := srv.hooks.clientInfo(r).value.0, clientSecret := srv.hooks.clientInfo(r).value.1)
  }

  /** The request stage a grant's own checks start from: method allowed, grant type given, client read. */
  predicate PastGrantChecks(srv: Server, r: Request)
  {
    TokenMethodAllowed(srv.config, r.verb) && FormValue(r, "grant_type") != "" && srv.hooks.clientInfo(r).Ok?
  }

  /** A method other than POST, or GET when GET is not allowed, is an invalid request; then an empty grant type is unsupported. */
  lemma TokenRequestMethodAndGrant(srv: Server, r: Request)
    ensures !TokenMethodAllowed(srv.config, r.verb) ==> ValidationTokenRequest(srv, r) == Err(InvalidRequest)
    ensures TokenMethodAllowed(srv.config, r.verb) && FormValue(r, "grant_type") == "" ==>
      ValidationTokenRequest(srv, r) == Err(UnsupportedGrantType)
    ensures (TokenMethodAllowed(srv.config, r.verb) && FormValue(r, "grant_type") != "" && srv.hooks.clientInfo(r).Err?) ==>
      ValidationTokenRequest(srv, r) == Err(srv.hooks.clientInfo(r).error)
  {
  }

  /** authorization_code needs redirect_uri and code, and code_verifier when PKCE is forced. */
  lemma TokenRequestAuthorizationCode(srv: Server, r: Request)
    requires PastGrantChecks(srv, r) && FormValue(r, "grant_type") == AuthorizationCode
    ensures var needed := FormValue(r, "redirect_uri") != "" && FormValue(r, "code") != ""
                          && (srv.config.forcePKCE ==> FormValue(r, "code_verifier") != "");
      && (!needed ==> ValidationTokenRequest(srv, r) == Err(InvalidRequest))
      && (needed ==>
            ValidationTokenRequest(srv, r) ==
            Ok((AuthorizationCode, ClientRequest(srv, r).(redirectURI := FormValue(r, "redirect_uri"),
                code := FormValue(r, "code"), codeVerifier := FormValue(r, "code_verifier")))))
  {
  }

  /** password needs username and password, and the handler must name a user. */
  lemma TokenRequestPassword(srv: Server, r: Request)
    requires PastGrantChecks(srv, r) && FormValue(r, "grant_type") == PasswordCredentials
    ensures (FormValue(r, "username") == "" || FormValue(r, "password") == "") ==>
      ValidationTokenRequest(srv, r) == Err(InvalidRequest)
    ensures var user := srv.hooks.passwordAuthorization(FormValue(r, "username"), FormValue(r, "password"));
      FormValue(r, "username") != "" && FormValue(r, "password") != "" ==>
        && (user == Ok("") ==> ValidationTokenRequest(srv, r) == Err(InvalidGrant))
        && (user.Err? ==> ValidationTokenRequest(srv, r) == Err(user.error))
        && (user.Ok? && user.value != "" ==>
              ValidationTokenRequest(srv, r) ==
              Ok((PasswordCredentials, ClientRequest(srv, r).(scope := FormValue(r, "scope"), userID := user.value))))
  {
  }

  /** client_credentials only reads the scope. */
  lemma TokenRequestClientCredentials(srv: Server, r: Request)
    requires PastGrantChecks(srv, r) && FormValue(r, "grant_type") == ClientCredentials
    ensures ValidationTokenRequest(srv, r) == Ok((ClientCredentials, ClientRequest(srv, r).(scope := FormValue(r, "scope"))))
  {
  }

  /** refresh_token needs the refresh token. */
  lemma TokenRequestRefresh(srv: Server, r: Request)
    requires PastGrantChecks(srv, r) && FormValue(r, "grant_type") == Refreshing
    ensures FormValue(r, "refresh_token") == "" ==> ValidationTokenRequest(srv, r) == Err(InvalidRequest)
    ensures FormValue(r, "refresh_token") != "" ==>
      ValidationTokenRequest(srv, r) ==
      Ok((Refreshing, ClientRequest(srv, r).(refresh := FormValue(r, "refresh_token"), scope := FormValue(r, "scope"))))
  {
  }

  /** Any other non-empty grant type passes validation with only the client credentials filled in. */
  lemma TokenRequestUnknownGrant(srv: Server, r: Request)
    requires PastGrantChecks(srv, r)
    requires FormValue(r, "grant_type") !in {AuthorizationCode, PasswordCredentials, ClientCredentials, Refreshing}
    ensures ValidationTokenRequest(srv, r) == Ok((FormValue(r, "grant_type"), ClientRequest(srv, r)))
  {
  }

  // ---------------------------------------------------------------- GetAccessToken

  /** CheckGrantType: whether the grant type is in the configured allow-list. */
  method CheckGrantType(cfg: Config, gt: GrantType) returns (allowed: bool)
    ensures allowed <==> gt in cfg.allowedGrantTypes
  {
    var i := 0;
    while i < |cfg.allowedGrantTypes|
      invariant 0 <= i <= |cfg.allowedGrantTypes|
      invariant forall j :: 0 <= j < i ==> cfg.allowedGrantTypes[j] != gt
    {
      if cfg.allowedGrantTypes[i] == gt {
        return true;
      }
      i := i + 1;
    }
    return false;
  }

  /** The manager's errors for an authorization-code exchange, as reported to the client. */
  function CodeExchangeError(e: Error): Error
  {
    match e
    case InvalidAuthorizeCode | InvalidCodeChallenge | MissingCodeChallenge => InvalidGrant
    case InvalidClient => InvalidClient
    case _ => e
  }

  /** A refresh token the store calls invalid or expired is an invalid grant. */
  function RefreshError(e: Error): Error
  {
    if e == InvalidRefreshToken || e == ExpiredRefreshToken then InvalidGrant else e
  }

  /** A `(bool, error)` hook result as a gate: the hook's error, the given error on false, or pass. */
  function Gate(allowed: Result<bool, Error>, denied: Error): Option<Error>
  {
    if allowed.Err? then Some(allowed.error) else if !allowed.value then Some(denied) else None
  }

  /** The client-authorized hook for a grant; a nil hook passes. */
  function ClientAuthorizedGate(srv: Server, gt: GrantType, tgr: TokenGenerateRequest): Option<Error>
  {
    match srv.hooks.clientAuthorized
    case None => None
    case Some(fn) => Gate(fn(tgr.clientID, gt), UnauthorizedClient)
  }

  /** The refresh-scope check, made only for a non-empty scope and a set hook. */
  function RefreshScopeGate(srv: Server, tgr: TokenGenerateRequest): Option<Error>
  {
    match srv.hooks.refreshingScope
    case Some(fn) =>
      if tgr.scope == "" then None
      else
        var rti := srv.manager.loadRefreshToken(tgr.refresh);
        if rti.Err? then Some(RefreshError(rti.error)) else Gate(fn(tgr, rti.value.scope), InvalidScope)
    case None => None
  }

  /** The refresh-validation check, made when its hook is set. */
  function RefreshValidationGate(srv: Server, tgr: TokenGenerateRequest): Option<Error>
  {
    match srv.hooks.refreshingValidation
    case Some(fn) =>
      var rti := srv.manager.loadRefreshToken(tgr.refresh);
      if rti.Err? then Some(RefreshError(rti.error)) else Gate(fn(rti.value), InvalidScope)
    case None => None
  }

  /** GetAccessToken: the grant allow-list, the client hook, then the grant's own path. */
  function GetAccessToken(srv: Server, gt: GrantType, tgr: TokenGenerateRequest): Result<TokenInfo, Error>
  {
    if gt !in srv.config.allowedGrantTypes then Err(UnauthorizedClient)
    else if ClientAuthorizedGate(srv, gt, tgr).Some? then Err(ClientAuthorizedGate(srv, gt, tgr).value)
    else if gt == AuthorizationCode then
      match srv.manager.generateAccessToken(gt, tgr)
      case Err(e) => Err(CodeExchangeError(e))
      case Ok(ti) => Ok(ti)
    else if gt == PasswordCredentials || gt == ClientCredentials then
      var scoped := match srv.hooks.clientScope case None => None case Some(fn) => Gate(fn(tgr), InvalidScope);
      if scoped.Some? then Err(scoped.value)
      else srv.manager.generateAccessToken(gt, tgr)
    else if gt == Refreshing then
      if RefreshScopeGate(srv, tgr).Some? then Err(RefreshScopeGate(srv, tgr).value)
      else if RefreshValidationGate(srv, tgr).Some? then Err(RefreshValidationGate(srv, tgr).value)
      else match srv.manager.refreshAccessToken(tgr)
        case Err(e) => Err(RefreshError(e))
        case Ok(ti) => Ok(ti)
    else Err(UnsupportedGrantType)
  }

  /** The client-authorized hook is nil or allows the client this grant. */
  predicate ClientAllowed(srv: Server, gt: GrantType, tgr: TokenGenerateRequest)
  {
    srv.hooks.clientAuthorized.None? || srv.hooks.clientAuthorized.value(tgr.clientID, gt) == Ok(true)
  }

  /** A grant type off the allow-list is an unauthorized client, whatever the manager would do. */
  lemma GrantNotAllowed(srv: Server, m: Manager, gt: GrantType, tgr: TokenGenerateRequest)
    requires gt !in srv.config.allowedGrantTypes
    ensures GetAccessToken(srv, gt, tgr) == Err(UnauthorizedClient)
    ensures GetAccessToken(srv.(manager := m), gt, tgr) == Err(UnauthorizedClient)
  {
  }

  /** An allowed grant that the client-authorized hook refuses is an unauthorized client. */
  lemma ClientNotAuthorized(srv: Server, gt: GrantType, tgr: TokenGenerateRequest)
    requires gt in srv.config.allowedGrantTypes
    requires srv.hooks.clientAuthorized.Some? && srv.hooks.clientAuthorized.value(tgr.clientID, gt) == Ok(false)
    ensures GetAccessToken(srv, gt, tgr) == Err(UnauthorizedClient)
  {
  }

  /** Code exchange: invalid code or challenge errors become invalid_grant, invalid_client stays, others pass through. */
  lemma CodeExchangeErrors(srv: Server, tgr: TokenGenerateRequest)
    requires AuthorizationCode in srv.config.allowedGrantTypes && ClientAllowed(srv, AuthorizationCode, tgr)
    ensures var issued := srv.manager.generateAccessToken(AuthorizationCode, tgr);
      && (issued.Ok? ==> GetAccessToken(srv, AuthorizationCode, tgr) == issued)
      && (issued.Err? && issued.error in {InvalidAuthorizeCode, InvalidCodeChallenge, MissingCodeChallenge} ==>
            GetAccessToken(srv, AuthorizationCode, tgr) == Err(InvalidGrant))
      && (issued.Err? && issued.error !in {InvalidAuthorizeCode, InvalidCodeChallenge, MissingCodeChallenge} ==>
            GetAccessToken(srv, AuthorizationCode, tgr) == Err(issued.error))
  {
  }

  /** Password and client-credentials grants: a scope the hook rejects is invalid_scope, else the manager decides. */
  lemma CredentialsScope(srv: Server, gt: GrantType, tgr: TokenGenerateRequest)
    requires gt in {PasswordCredentials, ClientCredentials}
    requires gt in srv.config.allowedGrantTypes && ClientAllowed(srv, gt, tgr)
    ensures srv.hooks.clientScope.Some? && srv.hooks.clientScope.value(tgr) == Ok(false) ==>
      GetAccessToken(srv, gt, tgr) == Err(InvalidScope)
    ensures (srv.hooks.clientScope.None? || srv.hooks.clientScope.value(tgr) == Ok(true)) ==>
      GetAccessToken(srv, gt, tgr) == srv.manager.generateAccessToken(gt, tgr)
  {
  }

  /** Refreshing: a refresh token reported invalid or expired by the store is an invalid grant. */
  lemma RefreshTokenErrors(srv: Server, tgr: TokenGenerateRequest)
    requires Refreshing in srv.config.allowedGrantTypes && ClientAllowed(srv, Refreshing, tgr)
    requires srv.manager.loadRefreshToken(tgr.refresh).Err?
    requires srv.manager.loadRefreshToken(tgr.refresh).error in {InvalidRefreshToken, ExpiredRefreshToken}
    requires (srv.hooks.refreshingScope.Some? && tgr.scope != "") || srv.hooks.refreshingValidation.Some?
    ensures GetAccessToken(srv, Refreshing, tgr) == Err(InvalidGrant)
  {
  }

  /** Refreshing: a scope the refresh-scope hook rejects is invalid_scope. */
  lemma RefreshScopeRejected(srv: Server, tgr: TokenGenerateRequest)
    requires Refreshing in srv.config.allowedGrantTypes && ClientAllowed(srv, Refreshing, tgr)
    requires srv.hooks.refreshingScope.Some? && tgr.scope != ""
    requires srv.manager.loadRefreshToken(tgr.refresh).Ok?
    requires srv.hooks.refreshingScope.value(tgr, srv.manager.loadRefreshToken(tgr.refresh).value.scope) == Ok(false)
    ensures GetAccessToken(srv, Refreshing, tgr) == Err(InvalidScope)
  {
  }

  /** Refreshing: a token the refresh-validation hook rejects is invalid_scope, once the scope check passes or is not made. */
  lemma RefreshValidationRejected(srv: Server, tgr: TokenGenerateRequest)
    requires Refreshing in srv.config.allowedGrantTypes && ClientAllowed(srv, Refreshing, tgr)
    requires RefreshScopeGate(srv, tgr).None?
    requires srv.hooks.refreshingValidation.Some? && srv.manager.loadRefreshToken(tgr.refresh).Ok?
    requires srv.hooks.refreshingValidation.value(srv.manager.loadRefreshToken(tgr.refresh).value) == Ok(false)
    ensures GetAccessToken(srv, Refreshing, tgr) == Err(InvalidScope)
  {
  }

  /**
   * Refreshing once both refresh checks pass (or are not made): the manager's refresh, with
   * invalid or expired tokens reported as invalid_grant.
   */
  lemma RefreshOnceChecksPass(srv: Server, tgr: TokenGenerateRequest)
    requires Refreshing in srv.config.allowedGrantTypes && ClientAllowed(srv, Refreshing, tgr)
    requires RefreshScopeGate(srv, tgr).None? && RefreshValidationGate(srv, tgr).None?
    ensures var refreshed := srv.manager.refreshAccessToken(tgr);
      && (refreshed.Ok? ==> GetAccessToken(srv, Refreshing, tgr) == refreshed)
      && (refreshed.Err? ==>
            GetAccessToken(srv, Refreshing, tgr) ==
            Err(if refreshed.error in {InvalidRefreshToken, ExpiredRefreshToken} then InvalidGrant else refreshed.error))
  {
  }

  /**
   * The errors GetAccessToken returns as it received them: a client-authorized or
   * client-scope hook error, a refresh-token lookup error other than invalid or expired,
   * and a refresh-scope or refresh-validation hook error.
   */
  lemma GetAccessTokenPassesErrors(srv: Server, gt: GrantType, tgr: TokenGenerateRequest)
    requires gt in srv.config.allowedGrantTypes
    ensures srv.hooks.clientAuthorized.Some? && srv.hooks.clientAuthorized.value(tgr.clientID, gt).Err? ==>
      GetAccessToken(srv, gt, tgr) == Err(srv.hooks.clientAuthorized.value(tgr.clientID, gt).error)
    ensures (ClientAllowed(srv, gt, tgr) && gt in {PasswordCredentials, ClientCredentials} &&
             srv.hooks.clientScope.Some? && srv.hooks.clientScope.value(tgr).Err?) ==>
      GetAccessToken(srv, gt, tgr) == Err(srv.hooks.clientScope.value(tgr).error)
    ensures (ClientAllowed(srv, gt, tgr) && gt == Refreshing &&
             ((srv.hooks.refreshingScope.Some? && tgr.scope != "") || srv.hooks.refreshingValidation.Some?) &&
             srv.manager.loadRefreshToken(tgr.refresh).Err? &&
             srv.manager.loadRefreshToken(tgr.refresh).error !in {InvalidRefreshToken, ExpiredRefreshToken}) ==>
      GetAccessToken(srv, gt, tgr) == Err(srv.manager.loadRefreshToken(tgr.refresh).error)
    ensures (ClientAllowed(srv, gt, tgr) && gt == Refreshing &&
             srv.hooks.refreshingScope.Some? && tgr.scope != "" && srv.manager.loadRefreshToken(tgr.refresh).Ok? &&
             srv.hooks.refreshingScope.value(tgr, srv.manager.loadRefreshToken(tgr.refresh).value.scope).Err?) ==>
      GetAccessToken(srv, gt, tgr) ==
      Err(srv.hooks.refreshingScope.value(tgr, srv.manager.loadRefreshToken(tgr.refresh).value.scope).error)
    ensures (ClientAllowed(srv, gt, tgr) && gt == Refreshing && RefreshScopeGate(srv, tgr).None? &&
             srv.hooks.refreshingValidation.Some? && srv.manager.loadRefreshToken(tgr.refresh).Ok? &&
             srv.hooks.refreshingValidation.value(srv.manager.loadRefreshToken(tgr.refresh).value).Err?) ==>
      GetAccessToken(srv, gt, tgr) ==
      Err(srv.hooks.refreshingValidation.value(srv.manager.loadRefreshToken(tgr.refresh).value).error)
  {
  }

  /** An allowed grant type with no path of its own is unsupported. */
  lemma UnsupportedGrant(srv: Server, gt: GrantType, tgr: TokenGenerateRequest)
    requires gt in srv.config.allowedGrantTypes && ClientAllowed(srv, gt, tgr)
    requires gt !in {AuthorizationCode, PasswordCredentials, ClientCredentials, Refreshing}
    ensures GetAccessToken(srv, gt, tgr) == Err(UnsupportedGrantType)
  {
  }

  // ---------------------------------------------------------------- HandleTokenRequest

  /**
   * The token record that goes to the ledger: owner, client and scope from the code
   * record read back, identifier and hash from the access token, and both timestamps
   * from the access token's creation time.
   */
  function TokenRecordFor(h: Hasher, codeRecord: CodeRecord, ti: TokenInfo, tgr: TokenGenerateRequest): TokenRecord
  {
    TokenRecord(
      infoType := TokenInfoType,
      idToken := TokenId(h, ti.access),
      didRO := codeRecord.didRO,
      didClient := codeRecord.didClient,
      scope := codeRecord.scope,
      hashToken := h(ti.access),
      timeIssued := ti.accessCreateAt,
      timeExpiration := ti.accessCreateAt,
      uriRedirection := tgr.redirectURI,
      condition := Available)
  }

  /**
   * Exchanging a code whose record has landed on the ledger gives a token record owned by
   * the code's owner and client, with the code's scope, issued and expiring at the same instant.
   */
  lemma TokenRecordFromCodeRecord(h: Hasher, l: LedgerState, codeRecord: CodeRecord, code: string,
                                  ti: TokenInfo, tgr: TokenGenerateRequest)
    requires codeRecord.idCode == CodeId(h, code) && tgr.code == code
    ensures var rec := TokenRecordFor(h, ReadCodeInfo(WriteCodeRecord(l, codeRecord), CodeId(h, tgr.code)), ti, tgr);
      && rec.didRO == codeRecord.didRO && rec.didClient == codeRecord.didClient && rec.scope == codeRecord.scope
      && rec.timeIssued == rec.timeExpiration == ti.accessCreateAt
      && rec.idToken == TokenId(h, ti.access) && rec.hashToken == h(ti.access)
      && rec.condition == Available && rec.infoType == TokenInfoType && rec.uriRedirection == tgr.redirectURI
  {
  }

  /** When no code record was written for the code, the token record carries empty owner, client and scope. */
  lemma TokenRecordWithoutCodeRecord(h: Hasher, l: LedgerState, ti: TokenInfo, tgr: TokenGenerateRequest)
    requires CodeId(h, tgr.code) !in l.codes
    ensures var rec := TokenRecordFor(h, ReadCodeInfo(l, CodeId(h, tgr.code)), ti, tgr);
      rec.didRO == "" && rec.didClient == "" && rec.scope == ""
  {
  }

  datatype TokenOutcome =
    /** An error response: the error, its data map, status and headers. */
    | TokenFailed(error: Error, data: Data, status: int, header: Header)
    /** A token was issued: its record is sent to the ledger and the token data is returned. */
    | TokenIssued(access: string, record: TokenRecord, data: Data)

  /**
   * HandleTokenRequest, as far as the record for the ledger and the response: validate,
   * obtain the token, read back the code record, build the TokenInfo record and the token data.
   */
  method HandleTokenRequest(srv: Server, h: Hasher, l: LedgerState, r: Request) returns (out: TokenOutcome)
    ensures ValidationTokenRequest(srv, r).Err? ==> out.TokenFailed? && out.error == ValidationTokenRequest(srv, r).error
    ensures ValidationTokenRequest(srv, r).Ok? ==>
      var gt := ValidationTokenRequest(srv, r).value.0;
      var tgr := ValidationTokenRequest(srv, r).value.1;
      var issued := GetAccessToken(srv, gt, tgr);
      && (issued.Err? ==> out.TokenFailed? && out.error == issued.error)
      && (issued.Ok? ==> out == TokenIssued(issued.value.access,
                                            TokenRecordFor(h, ReadCodeInfo(l, CodeId(h, tgr.code)), issued.value, tgr),
                                            TokenData(srv, issued.value)))
    ensures out.TokenFailed? ==> IsErrorData(srv, out.error, out.data, out.status, out.header)
    ensures out.TokenIssued? ==> out.record.idToken == TokenId(h, out.access) && out.record.hashToken == h(out.access)
  {
    var validated := ValidationTokenRequest(srv, r);
    if validated.Err? {
      var data, status, header := GetErrorData(srv, validated.error);
      return TokenFailed(validated.error, data, status, header);
    }
    var (gt, tgr) := validated.value;
    var issued := GetAccessToken(srv, gt, tgr);
    if issued.Err? {
      var data, status, header := GetErrorData(srv, issued.error);
      return TokenFailed(issued.error, data, status, header);
    }
    var ti := issued.value;
    var codeRecord := ReadCodeInfo(l, CodePrefix + h(tgr.code));
    var hash := h(ti.access);
    var record := TokenRecord(TokenInfoType, TokenPrefix + hash, codeRecord.didRO, codeRecord.didClient,
                              codeRecord.scope, hash, ti.accessCreateAt, ti.accessCreateAt,
                              tgr.redirectURI, Available);
    var data := GetTokenData(srv, ti);
    out := TokenIssued(ti.access, record, data);
  }
}
