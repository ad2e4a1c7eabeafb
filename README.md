# BAS authorization server core, modelled in Dafny

This project models the protocol core of the BAS authorization server
(`BAS/server/oauth2/server/server.go`). The server is an OAuth 2.0 authorization server
(RFC 6749) with PKCE (RFC 7636) and bearer tokens (RFC 6750). It copies every issued
authorization code and access token into an external ledger, stored by hash. The model covers:

- the validation of authorize and token requests;
- the grant allow-list and the translation of manager errors;
- the response builders (redirect URI, token data, error data);
- the hash-derived ledger identifiers and the bearer-token check against the ledger;
- the `CodeInfo` and `TokenInfo` records that the two handlers build for the ledger.

Modules, leaves first:

- `Wrappers`: `Option` and `Result`.
- `Errors`: the error values, `errors.Response`, and the description and status tables.
- `Http`: the request (method, form values, headers) and a parsed URL.
- `OAuth2`: the constants, the configuration, the request and token records, and the server
  with its manager and hooks.
- `Ledger`: the record identifiers and the ledger.
- `Responses`: `GetRedirectURI`, `GetTokenData`, `GetAuthorizeData` and `GetErrorData`.
- `Authorize`: the authorization endpoint.
- `Token`: the token endpoint.
- `Bearer`: the bearer-token check.

Modelling choices:

- **Oracles.** `oauth2.Manager` and every handler hook of `Server` are function-valued
  fields. Each returns a value or an error; a nil hook is `None`.
- **Hash.** `genHashS256` is the parameter `h: string -> string`. It is any deterministic
  function; SHA-256 and base64 are not modelled.
- **Ledger.** The ledger is two maps from identifier to record. A read of an identifier
  that is absent gives the zero-valued record, as a Go struct that was never filled.
  A ledger write is a function that gives the ledger after the write has landed.
- **Handler outcomes.** The record a handler sends to the ledger is part of that handler's
  result (`AuthorizeIssued.record`, `TokenIssued.record`).
- **Imperative parts.** The allow-list checks are methods with loops. Those loops are
  proved against membership in the allow-list. `GetRedirectURI` and `GetTokenData` are
  methods whose loops run over the data map; they are proved against the functions
  `RedirectParams` and `TokenData`. `GetErrorData` and the two handlers are methods that
  update their state step by step.
- **String length.** Go's `len` on the PKCE challenge counts UTF-8 bytes. It is modelled
  as `ByteLen`.
- **The fixed owner.** Every code is issued to the fixed owner `"UserDID"`.

Where the code does less than RFC 6749 asks or than an OAuth server is usually expected to do, the model follows the code:

- A failed authorize-request validation is returned as an error, not redirected. The
  request is nil at that point, so `redirectError` returns the error unchanged.
- A `response_type` outside the allow-list gives `unauthorized_client`, not
  `unsupported_response_type`.
- The token endpoint reads the `CodeInfo` record but never checks that it exists or that
  its hash matches. The token is issued whatever the ledger holds. A missing record
  gives a token record with empty owner, client and scope (`TokenRecordWithoutCodeRecord`).
  The endpoint reads the record for every grant type. For grants other than
  `authorization_code`, the code is empty, so it reads the record stored under `"CI_" + H("")`.
- Both timestamps of a token record are the access token's creation instant. The model keeps
  this as the code has it.
- For `response_type=token`, `HandleAuthorizeRequest` asserts that the data map holds a
  string `"code"`. The token data has no such key, so this type assertion panics unless
  an extension field supplies one. This is `AuthorizePanicked`.
- The code-exchange error switch lists `ErrMissingCodeChallenge` twice and not
  `ErrMissingCodeVerifier`. So a verifier error from the manager is passed on unchanged.
  Unless the error table knows it, it is reported as `server_error`.

## Model

| member | source | states |
|---|---|---|
| `Ledger.CodeId` | BAS/server/oauth2/server/server.go:352-355 | the code identifier is "CI_" followed by exactly the code's hash |
| `Ledger.TokenId` | BAS/server/oauth2/server/server.go:633-636 | the token identifier is "TI_" followed by exactly the token's hash |
| `Ledger.CodeIdInjective` | BAS/server/oauth2/server/server.go:605-608 | two codes share an identifier iff their hashes are equal (so equal codes give equal identifiers) |
| `Ledger.TokenIdInjective` | BAS/server/oauth2/server/server.go:753-756 | two tokens share an identifier iff their hashes are equal |
| `Ledger.CodeAndTokenIdsDiffer` | BAS/server/oauth2/server/server.go:354-355 | no code identifier equals any token identifier |
| `Ledger.WriteCodeRecord` | BAS/server/oauth2/server/server.go:369 | after a code write, the record is read back under its identifier and nothing else changes |
| `Ledger.WriteTokenRecord` | BAS/server/oauth2/server/server.go:652 | after a token write, the record is read back under its identifier and nothing else changes |
| `Responses.Sprint` | BAS/server/oauth2/server/server.go:132 | `fmt.Sprint` of a string or an integer value |
| `Responses.RedirectParams` | BAS/server/oauth2/server/server.go:126-133 | the query with the state and every data key set; `RedirectParamsHaveData`, `RedirectParamsEchoState` and `RedirectParamsKeys` state its contents |
| `Responses.RedirectParamsHaveData` | BAS/server/oauth2/server/server.go:131-133 | every data key is set to its rendered value, after the state |
| `Responses.RedirectParamsEchoState` | BAS/server/oauth2/server/server.go:127-129 | a non-empty state is echoed unless a data key replaces it |
| `Responses.RedirectParamsKeys` | BAS/server/oauth2/server/server.go:126-133 | the parameters are the old query plus state plus data; unrelated old query parameters are kept |
| `Responses.PlaceParams` | BAS/server/oauth2/server/server.go:135-145 | where the parameters go per response type; `PlaceParamsCode`, `PlaceParamsToken` and `PlaceParamsOther` state the placements |
| `Responses.PlaceParamsCode` | BAS/server/oauth2/server/server.go:136-137 | for `code` the parameters become the query and the fragment is kept |
| `Responses.PlaceParamsToken` | BAS/server/oauth2/server/server.go:138-144 | for `token` the query is emptied and the parameters become the fragment |
| `Responses.PlaceParamsOther` | BAS/server/oauth2/server/server.go:135-145 | any other response type leaves the parsed URI unchanged |
| `Responses.CodeRedirectCarriesCodeAndState` | BAS/server/oauth2/server/server.go:126-137 | a code redirect's query holds the code and a non-empty state |
| `Responses.GetRedirectURI` | BAS/server/oauth2/server/server.go:120-148 | a parse error is returned; otherwise the parsed URI with the parameters placed per response type (any other type: unchanged); the result is `RedirectFor` |
| `Responses.Seconds` | BAS/server/oauth2/server/server.go:555 | expires_in is the lifetime in whole seconds, truncated toward zero |
| `Responses.TokenData` | BAS/server/oauth2/server/server.go:551-576 | the token response; `TokenDataFields`, `TokenDataOmitsEmpty` and `TokenDataExtensionsDoNotOverwrite` state its keys and values |
| `Responses.TokenDataFields` | BAS/server/oauth2/server/server.go:552-564 | the token data holds access_token, token_type and expires_in, and scope and refresh_token when non-empty |
| `Responses.TokenDataOmitsEmpty` | BAS/server/oauth2/server/server.go:558-564 | without extensions, scope and refresh_token are present iff non-empty, and no other key is present |
| `Responses.TokenDataExtensionsDoNotOverwrite` | BAS/server/oauth2/server/server.go:566-574 | extension fields never replace a set key; all other extension fields are added |
| `Responses.GetTokenData` | BAS/server/oauth2/server/server.go:551-576 | the built map is the token fields merged over the extension fields |
| `Responses.GetAuthorizeData` | BAS/server/oauth2/server/server.go:265-272 | the code alone for `code`; the token data for any other response type |
| `Responses.ErrorResponseFor` | BAS/server/oauth2/server/server.go:667-689 | the error record GetErrorData settles on; the four lemmas below state the known, unknown and hook-less cases and the rewrite by the response-error hook |
| `Responses.KnownErrorResponse` | BAS/server/oauth2/server/server.go:669-673 | a known error takes its description and status from the tables |
| `Responses.UnknownErrorResponse` | BAS/server/oauth2/server/server.go:673-685 | an unknown error becomes server_error unless the internal-error hook supplies a response with an error; either way a response the hook supplies keeps its error_code, URI and header |
| `Responses.UnknownErrorWithoutHooks` | BAS/server/oauth2/server/server.go:680-684 | with no hooks, an unknown error is a bare server_error response |
| `Responses.ResponseErrorRewrites` | BAS/server/oauth2/server/server.go:687-689 | a set response-error hook is applied last, to the record settled on without it |
| `Responses.FillErrorResponse` | BAS/server/oauth2/server/server.go:667-689 | the record filled step by step is `ErrorResponseFor` |
| `Responses.ErrorDataShape` | BAS/server/oauth2/server/server.go:691-712 | each of error, error_code, error_description and error_uri is present iff its field is set, with its value; the status is the record's if positive, else 500 |
| `Responses.GetErrorData` | BAS/server/oauth2/server/server.go:667-714 | the map and status equal `ErrorData` and `ErrorStatus`, so error, error_code, error_description and error_uri appear iff set; the status is positive and defaults to 500 |
| `Errors.ErrorText` | BAS/server/oauth2/server/server.go:693 | the text under the "error" key: the protocol error codes of RFC 6749 sections 4.1.2.1 and 5.2, "invalid_request" for the three PKCE errors, and for the internal errors the messages assumed for the errors package |
| `Authorize.CheckResponseType` | BAS/server/oauth2/server/server.go:151-158 | true iff the response type is in the allow-list |
| `Authorize.CheckCodeChallengeMethod` | BAS/server/oauth2/server/server.go:161-168 | true iff the challenge method is in the allow-list |
| `Authorize.ByteLenAscii` | BAS/server/oauth2/server/server.go:190 | for ASCII text the byte length used by the check is the character count |
| `Authorize.AuthorizeRejectsMethodOrClient` | BAS/server/oauth2/server/server.go:172-177 | a method other than GET/POST or an empty client_id gives invalid_request first |
| `Authorize.AuthorizeRejectsResponseType` | BAS/server/oauth2/server/server.go:179-184 | next, an empty response_type is unsupported and one outside the allow-list is unauthorized_client |
| `Authorize.AuthorizeRequiresChallenge` | BAS/server/oauth2/server/server.go:186-189 | with PKCE forced, a missing challenge gives code_challenge_required |
| `Authorize.AuthorizeChallengeLength` | BAS/server/oauth2/server/server.go:190-192 | a present challenge fails on length iff it is under 43 or over 128 bytes; 42 and 129 fail, 43 and 128 pass; for an ASCII challenge, as RFC 7636 requires, the byte length is the character count (`ByteLenAscii`) |
| `Authorize.AuthorizeChallengeMethod` | BAS/server/oauth2/server/server.go:194-201 | the method in force (plain by default) must be in the allow-list, else unsupported_code_challenge_method |
| `Authorize.AuthorizeAccepted` | BAS/server/oauth2/server/server.go:171-213 | accepted iff every check passes; the request echoes client_id, state, scope, redirect_uri, response type and challenge |
| `Authorize.ValidationAuthorizeRequest` | BAS/server/oauth2/server/server.go:171-214 | the checks in source order, each with its own error; the lemmas `AuthorizeRejects*`, `AuthorizeRequiresChallenge`, `AuthorizeChallenge*` and `AuthorizeAccepted` characterise every error and the accepted request |
| `Authorize.GetAuthorizeToken` | BAS/server/oauth2/server/server.go:217-262 | the client-authorized hook, the scope hook, then the manager; `AuthorizeTokenGates` states each outcome and `AuthorizeTokenRequests` what each is handed |
| `Authorize.AuthorizeTokenRequests` | BAS/server/oauth2/server/server.go:220-260 | the client-authorized hook is asked about the implicit grant for `token` and authorization_code otherwise; the scope hook gets the request's client, user, redirect URI, scope and lifetime; the manager gets those and the PKCE challenge and method |
| `Authorize.AuthorizeTokenGates` | BAS/server/oauth2/server/server.go:217-261 | a hook error is passed on; the client-authorized hook refusing gives unauthorized_client; once it allows (or is nil), the scope hook refusing gives invalid_scope; once both allow, the result is the manager's |
| `Authorize.PrepareRequest` | BAS/server/oauth2/server/server.go:293-313 | the owner is fixed, then the scope and expiry hooks run; `PrepareRequestFields` states the resulting request and `PrepareRequestErrors` that the hook errors are returned as they are |
| `Authorize.PrepareRequestFields` | BAS/server/oauth2/server/server.go:293-313 | the request is issued to "UserDID", takes a non-empty hook scope and the expiry hook's lifetime, and keeps the validated fields |
| `Authorize.PrepareRequestErrors` | BAS/server/oauth2/server/server.go:297-313 | a scope hook error, then an expiry hook error, is returned as it is; with neither the request is prepared |
| `Authorize.CodeRecordFor` | BAS/server/oauth2/server/server.go:352-367 | the CodeInfo record for a code; `CodeRecordFound`, `AuthorizeCodeIssued` and `AuthorizeOtherTypePanics` state its fields and that it is read back under the code's identifier |
| `Authorize.CodeRecordFound` | BAS/server/oauth2/server/server.go:352-367 | a written code record is read back under the code's identifier, with the code's hash, Available, and an empty token link |
| `Authorize.AuthorizeOutcomeFor` | BAS/server/oauth2/server/server.go:293-373 | the outcome of a validated request: a hook error, the error redirect, a failed domain lookup, the panic, or the issued code with its record and redirect; the four lemmas below state each case |
| `Authorize.RedirectTarget` | BAS/server/oauth2/server/server.go:320-327 | the request's redirect URI, or the client's domain when it is empty, or the domain lookup's error; `AuthorizeFailures` and `AuthorizeCodeIssued` state its use |
| `Authorize.AuthorizeFailures` | BAS/server/oauth2/server/server.go:297-327 | a scope or expiry hook error, and a failed domain lookup for an empty redirect URI, each come back as `AuthorizeFailed` with the same error |
| `Authorize.AuthorizeCodeIssued` | BAS/server/oauth2/server/server.go:315-373 | for `code`, a code is issued iff the hooks, the manager and the domain lookup succeed; it is the manager's code, its record is a CodeInfo record naming "UserDID", the client, the prepared scope, the code's hash and identifier, the redirect URI in force and the issue instant, Available with no token, and the redirect's query carries the code and the state |
| `Authorize.AuthorizeIssueError` | BAS/server/oauth2/server/server.go:315-318 | a failed issue is an error redirect to the prepared request's URI whose parameters carry the error data |
| `Authorize.AuthorizeOtherTypePanics` | BAS/server/oauth2/server/server.go:330-373 | for other response types the handler panics iff the token data holds no string "code", and without extension fields it always panics; when an extension supplies one, that code is issued with its record (owner, client, scope, hash, URI, instant) and the redirect carries the token data |
| `Authorize.HandleAuthorizeRequest` | BAS/server/oauth2/server/server.go:275-379 | the outcome is exactly `AuthorizeResponseFor`: a validation error is returned unredirected, otherwise the outcome of the validated request; an issued record names "UserDID" and the request's client |
| `Authorize.AuthorizeValidated` | BAS/server/oauth2/server/server.go:293-373 | the step-by-step handler equals `AuthorizeOutcomeFor`, and an issued record names "UserDID" and the validated client |
| `Token.ValidationTokenRequest` | BAS/server/oauth2/server/server.go:392-450 | the method and grant-type checks, then the grant's own required fields; the `TokenRequest*` lemmas characterise each error and the built request |
| `Token.TokenRequestMethodAndGrant` | BAS/server/oauth2/server/server.go:393-406 | POST, or GET only when allowed, else invalid_request; then an empty grant type is unsupported; client errors pass through |
| `Token.TokenRequestAuthorizationCode` | BAS/server/oauth2/server/server.go:415-425 | authorization_code needs redirect_uri and code, plus code_verifier when PKCE is forced |
| `Token.TokenRequestPassword` | BAS/server/oauth2/server/server.go:426-439 | password needs username and password; an empty user id from the handler gives invalid_grant |
| `Token.TokenRequestClientCredentials` | BAS/server/oauth2/server/server.go:440-441 | client_credentials passes with the scope read |
| `Token.TokenRequestRefresh` | BAS/server/oauth2/server/server.go:442-447 | refresh_token needs the refresh token |
| `Token.TokenRequestUnknownGrant` | BAS/server/oauth2/server/server.go:414-449 | an unknown non-empty grant type passes with only the client credentials |
| `Token.CheckGrantType` | BAS/server/oauth2/server/server.go:453-460 | true iff the grant type is in the allow-list |
| `Token.GetAccessToken` | BAS/server/oauth2/server/server.go:463-548 | the allow-list, the client hook, then the grant's own path with its error mapping; the lemmas from `GrantNotAllowed` to `UnsupportedGrant` state every branch |
| `Token.CodeExchangeError` | BAS/server/oauth2/server/server.go:481-489 | the code-exchange error switch; `CodeExchangeErrors` states its effect |
| `Token.RefreshError` | BAS/server/oauth2/server/server.go:507-509 | invalid or expired refresh tokens become invalid_grant and other errors pass, as at the three lookups of the refresh path (also :524-526 and :539-541) |
| `Token.RefreshScopeGate` | BAS/server/oauth2/server/server.go:504-519 | the refresh-scope check, made only for a non-empty scope and a set hook; `RefreshTokenErrors`, `RefreshScopeRejected` and `GetAccessTokenPassesErrors` state its outcomes |
| `Token.RefreshValidationGate` | BAS/server/oauth2/server/server.go:521-535 | the refresh-validation check, made when its hook is set; `RefreshTokenErrors`, `RefreshValidationRejected` and `GetAccessTokenPassesErrors` state its outcomes |
| `Token.GrantNotAllowed` | BAS/server/oauth2/server/server.go:464-466 | a grant off the allow-list is unauthorized_client, whatever the manager is |
| `Token.ClientNotAuthorized` | BAS/server/oauth2/server/server.go:468-475 | the client-authorized hook refusing gives unauthorized_client |
| `Token.CodeExchangeErrors` | BAS/server/oauth2/server/server.go:478-491 | invalid code or challenge errors from the manager become invalid_grant; other errors pass through |
| `Token.CredentialsScope` | BAS/server/oauth2/server/server.go:492-501 | for password and client_credentials, a refusing scope hook gives invalid_scope, else the manager decides |
| `Token.RefreshTokenErrors` | BAS/server/oauth2/server/server.go:504-528 | an invalid or expired refresh token met by a hook's lookup gives invalid_grant |
| `Token.RefreshScopeRejected` | BAS/server/oauth2/server/server.go:504-519 | a refusing refresh-scope hook gives invalid_scope |
| `Token.RefreshValidationRejected` | BAS/server/oauth2/server/server.go:504-535 | once the refresh-scope check passes or is not made, a refusing refresh-validation hook gives invalid_scope |
| `Token.RefreshOnceChecksPass` | BAS/server/oauth2/server/server.go:537-544 | once the refresh-scope and refresh-validation checks pass or are not made, the manager's refresh result, with invalid or expired tokens reported as invalid_grant |
| `Token.GetAccessTokenPassesErrors` | BAS/server/oauth2/server/server.go:468-535 | a client-authorized or client-scope hook error, a refresh lookup error other than invalid or expired, and a refresh-scope or refresh-validation hook error are returned unchanged |
| `Token.UnsupportedGrant` | BAS/server/oauth2/server/server.go:477-547 | an allowed grant with no path of its own is unsupported_grant_type |
| `Token.TokenRecordFor` | BAS/server/oauth2/server/server.go:633-649 | the TokenInfo record for an access token; `TokenRecordFromCodeRecord`, `TokenRecordWithoutCodeRecord` and `Bearer.IssuedTokenAccepted` state its fields and that it passes the bearer check |
| `Token.TokenRecordFromCodeRecord` | BAS/server/oauth2/server/server.go:605-649 | the token record is a TokenInfo record that takes owner, client and scope from the code record read back, identifier and hash from the access token, and the redirect URI from the request; both timestamps are the creation instant; it is Available |
| `Token.TokenRecordWithoutCodeRecord` | BAS/server/oauth2/server/server.go:605-610 | with no code record, the token record has empty owner, client and scope |
| `Token.HandleTokenRequest` | BAS/server/oauth2/server/server.go:579-661 | validation and issuing errors give an error response; otherwise the TokenInfo record and the token data are returned |
| `Bearer.BearerAuth` | BAS/server/oauth2/server/server.go:717-729 | the token from a "Bearer " header, else from the access_token form value; `BearerFromHeader` and `BearerFromForm` state both cases |
| `Bearer.ValidationBearerToken` | BAS/server/oauth2/server/server.go:733-748 | no token gives invalid_access_token, otherwise the ledger check; `NoTokenRejected`, `PresentTokenChecked`, `FormTokenChecked` and `IssuedTokenAccepted` state the cases |
| `Bearer.LoadAccessTokeninBAS` | BAS/server/oauth2/server/server.go:750-768 | the ledger check; `LoadAccessTokenAccepts` states it accepts iff the record stores the token's hash |
| `Bearer.BearerFromHeader` | BAS/server/oauth2/server/server.go:718-723 | a "Bearer " header yields its remainder, and ok iff it is non-empty |
| `Bearer.BearerFromForm` | BAS/server/oauth2/server/server.go:724-728 | otherwise the token is the access_token form value |
| `Bearer.PresentTokenChecked` | BAS/server/oauth2/server/server.go:733-748 | any present token, from a header (tampered or not) or the form, is judged by the ledger check alone |
| `Bearer.FormTokenChecked` | BAS/server/oauth2/server/server.go:724-744 | a non-empty access_token form value with no "Bearer " header is judged by the ledger check |
| `Bearer.NoTokenRejected` | BAS/server/oauth2/server/server.go:736-739 | without a token, the result is invalid_access_token whatever the ledger holds |
| `Bearer.LoadAccessTokenAccepts` | BAS/server/oauth2/server/server.go:750-768 | accepted iff the record under "TI_"+H(t) stores H(t); otherwise the result is invalid_access_token |
| `Bearer.MissingRecordRejected` | BAS/server/oauth2/server/server.go:757-765 | a token with no record is rejected when its hash is non-empty |
| `Bearer.IssuedTokenAccepted` | BAS/server/oauth2/server/server.go:638-652 | once the record built at token issuance lands, the access token is accepted as a bearer token |
| `Bearer.OtherTokenUnaffected` | BAS/server/oauth2/server/server.go:753-765 | writing one token's record does not change the verdict on a token with a different hash |

## Left out

- HTTP output: the `redirect`, `token`, `redirectError` and `tokenError` writers (headers, status line, JSON encoding) are I/O. The handlers return the data they would write.
- The detached `go bcconnector.CreateCodeInfo` and `CreateTokenInfo` writes are concurrent I/O. Each handler returns the record it sends. `WriteCodeRecord` and `WriteTokenRecord` give the ledger once the write has landed; a write that fails or is late is not modelled.
- The `bcconnector` package, the Fabric gateway and `NewServer`'s connector bootstrap are foreign code and are not part of this model. A read of a missing identifier is assumed to give the zero-valued record.
- SHA-256 and base64 inside `genHashS256` are external. The hash is the uninterpreted parameter `h`.
- The oauth2.Manager (token store, code and token generation, client store) and every handler hook are oracles. Their internals are not part of this model. So the manager's own one-time use of codes is outside it too.
- The errors package is not part of this model. Its description and status tables are data carried by the server. Its error texts are assumed: the protocol errors carry their codes from RFC 6749 sections 4.1.2.1 and 5.2, the three PKCE errors the text "invalid_request", and the internal errors (invalid or expired tokens, missing verifier or challenge, and so on) short lower-case messages.
- `url.Parse` is the oracle `parseURL`. `Values.Encode`, `url.QueryUnescape` and `URL.String` are left out. A token redirect's fragment is the parameter map itself, so the `QueryUnescape` error branch is not modelled.
- `time.Now` is a parameter. Instants are integers, and their text form is not modelled.
- Logging, the request context, the embedded `*http.Request` in the request records, and the unused `UserAuthorizationHandler` are left out.
- `r.FormValue` is a map holding the first value of each parameter. How query and body are merged is left out.
- `NewConfig`'s default values and the default `ClientBasicHandler` come from files not part of this model. They are parameters.
- `BAS/server/server.go` (route wiring, session login, HTML) and `BAS/server/performanceCheck.go` (ledger bootstrap, demo server) are process plumbing and are not modelled.
- Response values other than strings and integers: Go's data maps hold `interface{}`. Extension fields of other types (booleans, floats, nested values) and their `fmt.Sprint` text in a redirect are not modelled (`Value` is `Str` or `Int`).
- `ByteLen` counts the UTF-8 bytes of a Dafny string, which cannot hold invalid UTF-8. A Go form value may carry such bytes, and `len` counts them raw.
- `Bearer.MissingRecordRejected` requires a non-empty hash. The real hash is always 44 characters, but the model's `h` is unconstrained.
