/**
 * The authorization endpoint: validation of an authorize request (method, client,
 * response type, PKCE challenge and method), the issuing of the code through the
 * manager, and HandleAuthorizeRequest as far as it builds the CodeInfo record for the
 * ledger and the redirect.
 */
module Authorize {
  import opened Wrappers
  import opened Errors
  import opened Http
  import opened OAuth2
  import opened Ledger
  import opened Responses

  const MinChallengeLen := 43
  const MaxChallengeLen := 128

  /** The resource-owner identity every code is issued to. */
  const FixedOwner := "UserDID"

  const CodeInfoType := "CodeInfo"
  const Available := "Available"

  // ---------------------------------------------------------------- allow-lists

  /** CheckResponseType: whether the response type is in the configured allow-list. */
  method CheckResponseType(cfg: Config, rt: ResponseType) returns (allowed: bool)
    ensures allowed <==> rt in cfg.allowedResponseTypes
  {
    var i := 0;
    while i < |cfg.allowedResponseTypes|
      invariant 0 <= i <= |cfg.allowedResponseTypes|
      invariant forall j :: 0 <= j < i ==> cfg.allowedResponseTypes[j] != rt
    {
      if cfg.allowedResponseTypes[i] == rt {
        return true;
      }
      i := i + 1;
    }
    return false;
  }

  /** CheckCodeChallengeMethod: whether the method is in the configured allow-list. */
  method CheckCodeChallengeMethod(cfg: Config, ccm: CodeChallengeMethod) returns (allowed: bool)
    ensures allowed <==> ccm in cfg.allowedCodeChallengeMethods
  {
    var i := 0;
    while i < |cfg.allowedCodeChallengeMethods|
      invariant 0 <= i <= |cfg.allowedCodeChallengeMethods|
      invariant forall j :: 0 <= j < i ==> cfg.allowedCodeChallengeMethods[j] != ccm
    {
      if cfg.allowedCodeChallengeMethods[i] == ccm {
        return true;
      }
      i := i + 1;
    }
    return false;
  }

  // ---------------------------------------------------------------- ValidationAuthorizeRequest

  /** The number of bytes of the UTF-8 encoding of a character. */
  function Utf8Width(c: char): nat
  {
    if c as int < 0x80 then 1 else if c as int < 0x800 then 2 else if c as int < 0x10000 then 3 else 4
  }

  /** Go's `len` of a string: the length of its UTF-8 encoding. */
  function ByteLen(s: string): nat
  {
    if s == [] then 0 else Utf8Width(s[0]) + ByteLen(s[1..])
  }

  /** For a string of ASCII characters the byte length is the character count. */
  lemma {:induction false} ByteLenAscii(s: string)
    requires forall i :: 0 <= i < |s| ==> s[i] as int < 0x80
    ensures ByteLen(s) == |s|
  {
    if s != [] {
      ByteLenAscii(s[1..]);
    }
  }

  /** ValidationAuthorizeRequest: the checks in their order, each with its own error. */
  function ValidationAuthorizeRequest(cfg: Config, r: Request): Result<AuthorizeRequest, Error>
  {
    var redirectURI := FormValue(r, "redirect_uri");
    var clientID := FormValue(r, "client_id");
    if !(r.verb == "GET" || r.verb == "POST") || clientID == "" then Err(InvalidRequest)
    else
      var resType := FormValue(r, "response_type");
      if resType == "" then Err(UnsupportedResponseType)
      else if resType !in cfg.allowedResponseTypes then Err(UnauthorizedClient)
      else
        var cc := FormValue(r, "code_challenge");
        if cc == "" && cfg.forcePKCE then Err(CodeChallengeRequired)
        else if cc != "" && (ByteLen(cc) < MinChallengeLen || ByteLen(cc) > MaxChallengeLen) then Err(InvalidCodeChallengeLen)
        else
          var given := FormValue(r, "code_challenge_method");
          var ccm := if given == "" then CodeChallengePlain else given;
          if ccm != "" && ccm !in cfg.allowedCodeChallengeMethods then Err(UnsupportedCodeChallengeMethod)
          else Ok(AuthorizeRequest(
            responseType := resType,
            clientID := clientID,
            scope := FormValue(r, "scope"),
            redirectURI := redirectURI,
            state := FormValue(r, "state"),
            userID := "",
            codeChallenge := cc,
            codeChallengeMethod := ccm,
            accessTokenExp := 0))
  }

  /** The first check: the method and the client. */
  predicate MethodAndClientValid(r: Request)
  {
    r.verb in {"GET", "POST"} && FormValue(r, "client_id") != ""
  }

  /** The response-type checks. */
  predicate ResponseTypeValid(cfg: Config, r: Request)
  {
    FormValue(r, "response_type") != "" && FormValue(r, "response_type") in cfg.allowedResponseTypes
  }

  /** The PKCE challenge checks: present when forced, and within the length window when present. */
  predicate ChallengeValid(cfg: Config, r: Request)
  {
    var cc := FormValue(r, "code_challenge");
    (cfg.forcePKCE ==> cc != "") && (cc != "" ==> MinChallengeLen <= ByteLen(cc) <= MaxChallengeLen)
  }

  /** The challenge method in force: the one given, or plain when none is. */
  function EffectiveChallengeMethod(r: Request): CodeChallengeMethod
  {
    if "code_challenge_method" in r.form && r.form["code_challenge_method"] != "" then r.form["code_challenge_method"]
    else CodeChallengePlain
  }

  /** A wrong method or an empty client_id is rejected first, whatever else the request holds. */
  lemma AuthorizeRejectsMethodOrClient(cfg: Config, r: Request)
    requires !MethodAndClientValid(r)
    ensures ValidationAuthorizeRequest(cfg, r) == Err(InvalidRequest)
  {
  }

  /** After the first check, an empty response_type is unsupported and an unlisted one unauthorized. */
  lemma AuthorizeRejectsResponseType(cfg: Config, r: Request)
    requires MethodAndClientValid(r)
    ensures FormValue(r, "response_type") == "" ==> ValidationAuthorizeRequest(cfg, r) == Err(UnsupportedResponseType)
    ensures FormValue(r, "response_type") != "" && FormValue(r, "response_type") !in cfg.allowedResponseTypes ==>
      ValidationAuthorizeRequest(cfg, r) == Err(UnauthorizedClient)
  {
  }

  /** Once the response type passes, forced PKCE without a challenge needs one. */
  lemma AuthorizeRequiresChallenge(cfg: Config, r: Request)
    requires MethodAndClientValid(r) && ResponseTypeValid(cfg, r)
    requires cfg.forcePKCE && FormValue(r, "code_challenge") == ""
    ensures ValidationAuthorizeRequest(cfg, r) == Err(CodeChallengeRequired)
  {
  }

  /**
   * Once the response type passes, a non-empty challenge is rejected for its length
   * exactly when it is shorter than 43 or longer than 128 bytes.
   */
  lemma AuthorizeChallengeLength(cfg: Config, r: Request)
    requires MethodAndClientValid(r) && ResponseTypeValid(cfg, r)
    requires FormValue(r, "code_challenge") != ""
    ensures var n := ByteLen(FormValue(r, "code_challenge"));
      ValidationAuthorizeRequest(cfg, r) == Err(InvalidCodeChallengeLen) <==> n < 43 || n > 128
    ensures ByteLen(FormValue(r, "code_challenge")) in {42, 129} ==>
      ValidationAuthorizeRequest(cfg, r) == Err(InvalidCodeChallengeLen)
    ensures ByteLen(FormValue(r, "code_challenge")) in {43, 128} ==>
      ValidationAuthorizeRequest(cfg, r) != Err(InvalidCodeChallengeLen)
  {
  }

  /** Once the challenge passes, the method in force (plain by default) must be allowed. */
  lemma AuthorizeChallengeMethod(cfg: Config, r: Request)
    requires MethodAndClientValid(r) && ResponseTypeValid(cfg, r) && ChallengeValid(cfg, r)
    ensures ValidationAuthorizeRequest(cfg, r).Ok? <==> EffectiveChallengeMethod(r) in cfg.allowedCodeChallengeMethods
    ensures !ValidationAuthorizeRequest(cfg, r).Ok? ==> ValidationAuthorizeRequest(cfg, r) == Err(UnsupportedCodeChallengeMethod)
    ensures FormValue(r, "code_challenge_method") == "" && ValidationAuthorizeRequest(cfg, r).Ok? ==>
      ValidationAuthorizeRequest(cfg, r).value.codeChallengeMethod == CodeChallengePlain
  {
  }

  /**
   * A request is accepted exactly when it passes every check, and the accepted request
   * echoes the client, state, scope, redirect URI, response type and challenge it was given.
   */
  lemma AuthorizeAccepted(cfg: Config, r: Request)
    ensures ValidationAuthorizeRequest(cfg, r).Ok? <==>
      && MethodAndClientValid(r) && ResponseTypeValid(cfg, r) && ChallengeValid(cfg, r)
      && EffectiveChallengeMethod(r) in cfg.allowedCodeChallengeMethods
    ensures ValidationAuthorizeRequest(cfg, r).Ok? ==>
      ValidationAuthorizeRequest(cfg, r).value == AuthorizeRequest(
        FormValue(r, "response_type"), FormValue(r, "client_id"), FormValue(r, "scope"),
        FormValue(r, "redirect_uri"), FormValue(r, "state"), "", FormValue(r, "code_challenge"),
        EffectiveChallengeMethod(r), 0)
  {
  }

  // ---------------------------------------------------------------- GetAuthorizeToken

  /** The grant the client must be allowed: implicit for `token`, authorization_code otherwise. */
  function AuthorizeGrantType(rt: ResponseType): GrantType
  {
    if rt == Token then Implicit else AuthorizationCode
  }

  /** The request handed to the client-scope hook. */
  function ScopeCheckRequest(req: AuthorizeRequest): TokenGenerateRequest
  {
    EmptyTokenRequest.(clientID := req.clientID, userID := req.userID, redirectURI := req.redirectURI,
                       scope := req.scope, accessTokenExp := req.accessTokenExp)
  }

  /** The request handed to the manager: the same fields plus the PKCE challenge. */
  function AuthTokenRequest(req: AuthorizeRequest): TokenGenerateRequest
  {
    ScopeCheckRequest(req).(codeChallenge := req.codeChallenge, codeChallengeMethod := req.codeChallengeMethod)
  }

  /** GetAuthorizeToken: the client-authorized hook, the client-scope hook, then the manager. */
  function GetAuthorizeToken(srv: Server, req: AuthorizeRequest): Result<TokenInfo, Error>
  {
    var authorized :=
      match srv.hooks.clientAuthorized
      case None => Ok(true)
      case Some(fn) => fn(req.clientID, AuthorizeGrantType(req.responseType));
    if authorized.Err? then Err(authorized.error)
    else if !authorized.value then Err(UnauthorizedClient)
    else
      var scoped :=
        match srv.hooks.clientScope
        case None => Ok(true)
        case Some(fn) => fn(ScopeCheckRequest(req));
      if scoped.Err? then Err(scoped.error)
      else if !scoped.value then Err(InvalidScope)
      else srv.manager.generateAuthToken(req.responseType, AuthTokenRequest(req))
  }

  /**
   * What the hooks and the manager are handed: the client-authorized hook the implicit
   * grant for `token` and authorization_code otherwise; the scope hook the client, user,
   * redirect URI, scope and lifetime of the request; the manager the same plus the PKCE
   * challenge and its method.
   */
  lemma AuthorizeTokenRequests(req: AuthorizeRequest)
    ensures AuthorizeGrantType(req.responseType) == (if req.responseType == Token then Implicit else AuthorizationCode)
    ensures var s := ScopeCheckRequest(req);
      && s.clientID == req.clientID && s.userID == req.userID && s.redirectURI == req.redirectURI
      && s.scope == req.scope && s.accessTokenExp == req.accessTokenExp
    ensures var m := AuthTokenRequest(req);
      && m.clientID == req.clientID && m.userID == req.userID && m.redirectURI == req.redirectURI
      && m.scope == req.scope && m.accessTokenExp == req.accessTokenExp
      && m.codeChallenge == req.codeChallenge && m.codeChallengeMethod == req.codeChallengeMethod
  {
  }

  /** The client-authorized hook is nil or allows the client the grant of the response type. */
  predicate AuthorizeClientAllowed(srv: Server, req: AuthorizeRequest)
  {
    srv.hooks.clientAuthorized.None? ||
    srv.hooks.clientAuthorized.value(req.clientID, AuthorizeGrantType(req.responseType)) == Ok(true)
  }

  /** The client-scope hook is nil or accepts the requested scope. */
  predicate AuthorizeScopeAllowed(srv: Server, req: AuthorizeRequest)
  {
    srv.hooks.clientScope.None? || srv.hooks.clientScope.value(ScopeCheckRequest(req)) == Ok(true)
  }

  /**
   * A hook error is passed on, a client not allowed the grant is unauthorized, a scope the
   * hook rejects is invalid, and once both hooks allow the manager decides.
   */
  lemma AuthorizeTokenGates(srv: Server, req: AuthorizeRequest)
    ensures (srv.hooks.clientAuthorized.Some? &&
             srv.hooks.clientAuthorized.value(req.clientID, AuthorizeGrantType(req.responseType)).Err?) ==>
      GetAuthorizeToken(srv, req) ==
      Err(srv.hooks.clientAuthorized.value(req.clientID, AuthorizeGrantType(req.responseType)).error)
    ensures (srv.hooks.clientAuthorized.Some? &&
             srv.hooks.clientAuthorized.value(req.clientID, AuthorizeGrantType(req.responseType)) == Ok(false)) ==>
      GetAuthorizeToken(srv, req) == Err(UnauthorizedClient)
    ensures (AuthorizeClientAllowed(srv, req) && srv.hooks.clientScope.Some? &&
             srv.hooks.clientScope.value(ScopeCheckRequest(req)).Err?) ==>
      GetAuthorizeToken(srv, req) == Err(srv.hooks.clientScope.value(ScopeCheckRequest(req)).error)
    ensures (AuthorizeClientAllowed(srv, req) && srv.hooks.clientScope.Some? &&
             srv.hooks.clientScope.value(ScopeCheckRequest(req)) == Ok(false)) ==>
      GetAuthorizeToken(srv, req) == Err(InvalidScope)
    ensures AuthorizeClientAllowed(srv, req) && AuthorizeScopeAllowed(srv, req) ==>
      GetAuthorizeToken(srv, req) == srv.manager.generateAuthToken(req.responseType, AuthTokenRequest(req))
  {
  }

  // ---------------------------------------------------------------- HandleAuthorizeRequest

  /** The request after the owner is fixed and the scope and expiry hooks have run. */
  function PrepareRequest(srv: Server, r: Request, req: AuthorizeRequest): Result<AuthorizeRequest, Error>
  {
    var owned := req.(userID := FixedOwner);
    var scoped :=
      match srv.hooks.authorizeScope
      case None => Ok(owned)
      case Some(fn) =>
        var s := fn(r);
        if s.Err? then Err(s.error) else if s.value != "" then Ok(owned.(scope := s.value)) else Ok(owned);
    if scoped.Err? then scoped
    else match srv.hooks.accessTokenExp
      case None => scoped
      case Some(fn) =>
        var e := fn(r);
        if e.Err? then Err(e.error) else Ok(scoped.value.(accessTokenExp := e.value))
  }

  /** The prepared request keeps what was validated, is issued to the fixed owner, and takes a non-empty hook scope. */
  lemma PrepareRequestFields(srv: Server, r: Request, req: AuthorizeRequest)
    requires PrepareRequest(srv, r, req).Ok?
    ensures var p := PrepareRequest(srv, r, req).value;
      && p.userID == FixedOwner
      && p.responseType == req.responseType && p.clientID == req.clientID && p.state == req.state
      && p.redirectURI == req.redirectURI
      && p.codeChallenge == req.codeChallenge && p.codeChallengeMethod == req.codeChallengeMethod
      && p.scope == (if srv.hooks.authorizeScope.Some? && srv.hooks.authorizeScope.value(r).value != ""
                     then srv.hooks.authorizeScope.value(r).value else req.scope)
      && p.accessTokenExp == (if srv.hooks.accessTokenExp.Some? then srv.hooks.accessTokenExp.value(r).value
                              else req.accessTokenExp)
  {
  }

  /** A scope or expiry hook error is returned as it is; when neither hook fails the request is prepared. */
  lemma PrepareRequestErrors(srv: Server, r: Request, req: AuthorizeRequest)
    ensures srv.hooks.authorizeScope.Some? && srv.hooks.authorizeScope.value(r).Err? ==>
      PrepareRequest(srv, r, req) == Err(srv.hooks.authorizeScope.value(r).error)
    ensures ((srv.hooks.authorizeScope.None? || srv.hooks.authorizeScope.value(r).Ok?) &&
             srv.hooks.accessTokenExp.Some? && srv.hooks.accessTokenExp.value(r).Err?) ==>
      PrepareRequest(srv, r, req) == Err(srv.hooks.accessTokenExp.value(r).error)
    ensures ((srv.hooks.authorizeScope.None? || srv.hooks.authorizeScope.value(r).Ok?) &&
             (srv.hooks.accessTokenExp.None? || srv.hooks.accessTokenExp.value(r).Ok?)) ==>
      PrepareRequest(srv, r, req).Ok?
  {
  }

  /** The code record that goes to the ledger for a code issued on a request. */
  function CodeRecordFor(h: Hasher, req: AuthorizeRequest, code: string, now: Time): CodeRecord
  {
    CodeRecord(
      infoType := CodeInfoType,
      idCode := CodeId(h, code),
      didRO := req.userID,
      didClient := req.clientID,
      scope := req.scope,
      hashCode := h(code),
      timeIssued := now,
      uriRedirection := req.redirectURI,
      condition := Available,
      idToken := "")
  }

  /** A written code record is found again under the identifier of its code, with the code's hash. */
  lemma CodeRecordFound(h: Hasher, l: LedgerState, req: AuthorizeRequest, code: string, now: Time)
    ensures var rec := CodeRecordFor(h, req, code, now);
      && ReadCodeInfo(WriteCodeRecord(l, rec), CodeId(h, code)) == rec
      && rec.hashCode == h(code) && rec.condition == Available && rec.idToken == ""
  {
  }

  datatype AuthorizeOutcome =
    /** HandleAuthorizeRequest returns the error; nothing is redirected. */
    | AuthorizeFailed(error: Error)
    /** Issuing failed: a redirect carrying the error data is attempted. */
    | AuthorizeErrorRedirect(error: Error, redirect: Result<URL, Error>)
    /** A code was issued: its record is sent to the ledger and a redirect is attempted. */
    | AuthorizeIssued(code: string, record: CodeRecord, redirect: Result<URL, Error>)
    /** The data map has no string "code" and the type assertion panics. */
    | AuthorizePanicked

  /** The redirect URI in force: the request's, or the client's domain when it is empty. */
  function RedirectTarget(srv: Server, p: AuthorizeRequest): Result<AuthorizeRequest, Error>
  {
    if p.redirectURI != "" then Ok(p)
    else match srv.manager.clientDomain(p.clientID)
      case Ok(domain) => Ok(p.(redirectURI := domain))
      case Err(e) => Err(e)
  }

  /** The data map HandleAuthorizeRequest takes the code from and redirects with. */
  function AuthorizeDataFor(srv: Server, rt: ResponseType, ti: TokenInfo): Data
  {
    if rt == Code then map["code" := Str(ti.code)] else TokenData(srv, ti)
  }

  /**
   * What handling a validated request leads to: a hook error; an error redirect when issuing
   * fails; a failed domain lookup; a panic when the data map holds no string code; or the
   * code with its CodeInfo record and the redirect carrying the data.
   */
  function AuthorizeOutcomeFor(srv: Server, h: Hasher, r: Request, req: AuthorizeRequest, now: Time): AuthorizeOutcome
  {
    match PrepareRequest(srv, r, req)
    case Err(e) => AuthorizeFailed(e)
    case Ok(p) =>
      match GetAuthorizeToken(srv, p)
      case Err(e) => AuthorizeErrorRedirect(e, RedirectFor(srv, p, ErrorData(srv, e)))
      case Ok(ti) =>
        match RedirectTarget(srv, p)
        case Err(e) => AuthorizeFailed(e)
        case Ok(q) =>
          var data := AuthorizeDataFor(srv, q.responseType, ti);
          if "code" in data && data["code"].Str? then
            AuthorizeIssued(data["code"].s, CodeRecordFor(h, q, data["code"].s, now), RedirectFor(srv, q, data))
          else AuthorizePanicked
  }

  /**
   * The two failures returned as they are: a scope or expiry hook error, and a failed
   * lookup of the client's domain for an empty redirect URI once the token is issued.
   */
  lemma AuthorizeFailures(srv: Server, h: Hasher, r: Request, req: AuthorizeRequest, now: Time)
    ensures PrepareRequest(srv, r, req).Err? ==>
      AuthorizeOutcomeFor(srv, h, r, req, now) == AuthorizeFailed(PrepareRequest(srv, r, req).error)
    ensures (PrepareRequest(srv, r, req).Ok? && GetAuthorizeToken(srv, PrepareRequest(srv, r, req).value).Ok? &&
             req.redirectURI == "" && srv.manager.clientDomain(req.clientID).Err?) ==>
      AuthorizeOutcomeFor(srv, h, r, req, now) == AuthorizeFailed(srv.manager.clientDomain(req.clientID).error)
  {
    if PrepareRequest(srv, r, req).Ok? {
      PrepareRequestFields(srv, r, req);
    }
  }

  /**
   * For the `code` response type a code is issued exactly when the hooks, the manager and
   * the domain lookup all succeed; it is the manager's code, its record is issued to the
   * fixed owner and the client with the code's hash, and the redirect carries the code and
   * the state.
   */
  lemma AuthorizeCodeIssued(srv: Server, h: Hasher, r: Request, req: AuthorizeRequest, now: Time)
    requires req.responseType == Code
    ensures var out := AuthorizeOutcomeFor(srv, h, r, req, now);
      out.AuthorizeIssued? <==>
        && PrepareRequest(srv, r, req).Ok?
        && GetAuthorizeToken(srv, PrepareRequest(srv, r, req).value).Ok?
        && RedirectTarget(srv, PrepareRequest(srv, r, req).value).Ok?
    ensures var out := AuthorizeOutcomeFor(srv, h, r, req, now);
      out.AuthorizeIssued? ==>
        var p := PrepareRequest(srv, r, req).value;
        var q := RedirectTarget(srv, p).value;
        && out.code == GetAuthorizeToken(srv, p).value.code
        && out.record == CodeRecordFor(h, q, out.code, now)
        && out.record.didRO == FixedOwner && out.record.didClient == req.clientID
        && out.record.hashCode == h(out.code) && out.record.idCode == CodeId(h, out.code)
        && out.record.scope == p.scope && out.record.infoType == CodeInfoType && out.record.timeIssued == now
        && out.record.condition == Available && out.record.idToken == ""
        && out.record.uriRedirection == (if req.redirectURI != "" then req.redirectURI
                                         else srv.manager.clientDomain(req.clientID).value)
        && out.redirect == RedirectFor(srv, q, map["code" := Str(out.code)])
        && (out.redirect.Ok? ==>
              && "code" in out.redirect.value.query && out.redirect.value.query["code"] == [out.code]
              && (req.state != "" ==> "state" in out.redirect.value.query &&
                                      out.redirect.value.query["state"] == [req.state]))
  {
    if PrepareRequest(srv, r, req).Ok? {
      var p := PrepareRequest(srv, r, req).value;
      PrepareRequestFields(srv, r, req);
      if GetAuthorizeToken(srv, p).Ok? && RedirectTarget(srv, p).Ok? {
        var q := RedirectTarget(srv, p).value;
        var code := GetAuthorizeToken(srv, p).value.code;
        if srv.parseURL(q.redirectURI).Ok? {
          CodeRedirectCarriesCodeAndState(srv.parseURL(q.redirectURI).value, q.state, code);
        }
      }
    }
  }

  /**
   * When the manager or an issuing hook fails, the outcome is an error redirect to the
   * request's own redirect URI whose parameters carry the error data.
   */
  lemma AuthorizeIssueError(srv: Server, h: Hasher, r: Request, req: AuthorizeRequest, now: Time)
    requires PrepareRequest(srv, r, req).Ok?
    requires GetAuthorizeToken(srv, PrepareRequest(srv, r, req).value).Err?
    ensures var p := PrepareRequest(srv, r, req).value;
      var e := GetAuthorizeToken(srv, p).error;
      var out := AuthorizeOutcomeFor(srv, h, r, req, now);
      && out == AuthorizeErrorRedirect(e, RedirectFor(srv, p, ErrorData(srv, e)))
      && (srv.parseURL(p.redirectURI).Ok? && ErrorResponseFor(srv, e).error.Some? ==>
            var params := RedirectParams(srv.parseURL(p.redirectURI).value.query, p.state, ErrorData(srv, e));
            "error" in params && params["error"] == [ErrorText(ErrorResponseFor(srv, e).error.value)])
  {
    var p := PrepareRequest(srv, r, req).value;
    var e := GetAuthorizeToken(srv, p).error;
    if srv.parseURL(p.redirectURI).Ok? {
      RedirectParamsHaveData(srv.parseURL(p.redirectURI).value.query, p.state, ErrorData(srv, e));
    }
  }

  /**
   * For a response type other than `code` the handler panics exactly when the token data
   * holds no string "code"; without the extension hook it always does once a token is issued.
   * When an extension field does supply a string code, that code is issued with its record
   * for the prepared request and the redirect carries the whole token data.
   */
  lemma AuthorizeOtherTypePanics(srv: Server, h: Hasher, r: Request, req: AuthorizeRequest, now: Time)
    requires req.responseType != Code
    requires PrepareRequest(srv, r, req).Ok?
    requires GetAuthorizeToken(srv, PrepareRequest(srv, r, req).value).Ok?
    requires RedirectTarget(srv, PrepareRequest(srv, r, req).value).Ok?
    ensures var d := TokenData(srv, GetAuthorizeToken(srv, PrepareRequest(srv, r, req).value).value);
      AuthorizeOutcomeFor(srv, h, r, req, now).AuthorizePanicked? <==> !("code" in d && d["code"].Str?)
    ensures srv.hooks.extensionFields.None? ==> AuthorizeOutcomeFor(srv, h, r, req, now) == AuthorizePanicked
    ensures var p := PrepareRequest(srv, r, req).value;
      var q := RedirectTarget(srv, p).value;
      var d := TokenData(srv, GetAuthorizeToken(srv, p).value);
      var out := AuthorizeOutcomeFor(srv, h, r, req, now);
      ("code" in d && d["code"].Str?) ==>
        && out.AuthorizeIssued? && out.code == d["code"].s
        && out.record.didRO == FixedOwner && out.record.didClient == req.clientID && out.record.scope == p.scope
        && out.record.hashCode == h(out.code) && out.record.idCode == CodeId(h, out.code)
        && out.record.uriRedirection == q.redirectURI && out.record.timeIssued == now
        && out.redirect == RedirectFor(srv, q, d)
  {
    var p := PrepareRequest(srv, r, req).value;
    PrepareRequestFields(srv, r, req);
    var ti := GetAuthorizeToken(srv, p).value;
    if srv.hooks.extensionFields.None? {
      TokenDataOmitsEmpty(srv, ti);
    }
  }

  /** What handling a request leads to: the validation error as it is, or the outcome of the validated request. */
  function AuthorizeResponseFor(srv: Server, h: Hasher, r: Request, now: Time): AuthorizeOutcome
  {
    match ValidationAuthorizeRequest(srv.config, r)
    case Err(e) => AuthorizeFailed(e)
    case Ok(req) => AuthorizeOutcomeFor(srv, h, r, req, now)
  }

  /**
   * HandleAuthorizeRequest, as far as the record for the ledger and the redirect: validate,
   * then go on with the validated request. A validation error is returned as it is: the
   * request is nil at that point, so no error redirect is made.
   */
  method HandleAuthorizeRequest(srv: Server, h: Hasher, r: Request, now: Time) returns (out: AuthorizeOutcome)
    ensures out == AuthorizeResponseFor(srv, h, r, now)
    ensures ValidationAuthorizeRequest(srv.config, r).Err? ==> out == AuthorizeFailed(ValidationAuthorizeRequest(srv.config, r).error)
    ensures out.AuthorizeIssued? ==> out.record.didRO == FixedOwner && out.record.didClient == FormValue(r, "client_id")
  {
    var validated := ValidationAuthorizeRequest(srv.config, r);
    if validated.Err? {
      return AuthorizeFailed(validated.error);
    }
    AuthorizeAccepted(srv.config, r);
    out := AuthorizeValidated(srv, h, r, validated.value, now);
  }

  /**
   * The rest of HandleAuthorizeRequest: fix the owner, run the scope and expiry hooks,
   * issue through the manager, fall back to the client's domain for an empty redirect URI,
   * build the CodeInfo record and redirect.
   */
  method AuthorizeValidated(srv: Server, h: Hasher, r: Request, validated: AuthorizeRequest, now: Time)
    returns (out: AuthorizeOutcome)
    ensures out == AuthorizeOutcomeFor(srv, h, r, validated, now)
    ensures out.AuthorizeIssued? ==> out.record.didRO == FixedOwner && out.record.didClient == validated.clientID
  {
    var req := validated;
    req := req.(userID := FixedOwner);
    if srv.hooks.authorizeScope.Some? {
      var scope := srv.hooks.authorizeScope.value(r);
      if scope.Err? {
        return AuthorizeFailed(scope.error);
      } else if scope.value != "" {
        req := req.(scope := scope.value);
      }
    }
    if srv.hooks.accessTokenExp.Some? {
      var exp := srv.hooks.accessTokenExp.value(r);
      if exp.Err? {
        return AuthorizeFailed(exp.error);
      }
      req := req.(accessTokenExp := exp.value);
    }
    assert req == PrepareRequest(srv, r, validated).value;

    var ti := GetAuthorizeToken(srv, req);
    if ti.Err? {
      var errData, _, _ := GetErrorData(srv, ti.error);
      var redirect := GetRedirectURI(srv, req, errData);
      return AuthorizeErrorRedirect(ti.error, redirect);
    }

    if req.redirectURI == "" {
      var domain := srv.manager.clientDomain(req.clientID);
      if domain.Err? {
        return AuthorizeFailed(domain.error);
      }
      req := req.(redirectURI := domain.value);
    }

    var data := GetAuthorizeData(srv, req.responseType, ti.value);
    if !("code" in data && data["code"].Str?) {
      return AuthorizePanicked;
    }
    var code := data["code"].s;
    var hash := h(code);
    var record := CodeRecord(CodeInfoType, CodePrefix + hash, req.userID, req.clientID, req.scope,
                             hash, now, req.redirectURI, Available, "");
    var redirect := GetRedirectURI(srv, req, data);
    out := AuthorizeIssued(code, record, redirect);
  }
}
