/**
 * The response builders: the redirect URI of an authorize response, the token and
 * authorize data maps, and the error data map with its status code.
 */
module Responses {
  import opened Wrappers
  import opened Errors
  import opened Http
  import opened OAuth2

  // ---------------------------------------------------------------- fmt.Sprint

  function DigitChar(d: nat): char
    requires d < 10
  {
    "0123456789"[d]
  }

  function NatText(n: nat): string
  {
    if n < 10 then [DigitChar(n)] else NatText(n / 10) + [DigitChar(n % 10)]
  }

  /** fmt.Sprint of a response value: the string itself, or an integer in decimal. */
  function Sprint(v: Value): string
  {
    match v
    case Str(s) => s
    case Int(i) => if i < 0 then "-" + NatText(-i) else NatText(i)
  }

  // ---------------------------------------------------------------- GetRedirectURI

  /** The query after `q.Set("state", state)` when the state is non-empty. */
  function WithState(q: Values, state: string): Values
  {
    if state != "" then q["state" := [state]] else q
  }

  /** The query after `q.Set(k, fmt.Sprint(data[k]))` for every key `k` in `done`. */
  function SetAll(q: Values, data: Data, done: set<string>): (q': Values)
    requires done <= data.Keys
  {
    map k | k in q.Keys + done :: if k in done then [Sprint(data[k])] else q[k]
  }

  /** The response parameters of an authorize redirect: the existing query, the state, then the data. */
  function RedirectParams(q: Values, state: string, data: Data): Values
  {
    SetAll(WithState(q, state), data, data.Keys)
  }

  /** Every data key is present with its rendered value; data keys are applied after the state. */
  lemma RedirectParamsHaveData(q: Values, state: string, data: Data)
    ensures forall k :: k in data ==> k in RedirectParams(q, state, data) && RedirectParams(q, state, data)[k] == [Sprint(data[k])]
  {
  }

  /** A non-empty state is echoed unless a data key named "state" replaces it. */
  lemma RedirectParamsEchoState(q: Values, state: string, data: Data)
    requires state != "" && "state" !in data
    ensures "state" in RedirectParams(q, state, data) && RedirectParams(q, state, data)["state"] == [state]
  {
  }

  /** The parameters hold exactly the existing query, the state and the data keys; other query parameters are kept. */
  lemma RedirectParamsKeys(q: Values, state: string, data: Data)
    ensures RedirectParams(q, state, data).Keys == q.Keys + data.Keys + (if state != "" then {"state"} else {})
    ensures forall k :: k in q && k !in data && (k != "state" || state == "") ==> RedirectParams(q, state, data)[k] == q[k]
  {
  }

  /**
   * Where the parameters go: into the query for `code`; into the fragment, with the query
   * emptied, for `token`; any other response type leaves the URI as parsed.
   */
  function PlaceParams(u: URL, rt: ResponseType, state: string, data: Data): URL
  {
    var params := RedirectParams(u.query, state, data);
    if rt == Code then u.(query := params)
    else if rt == Token then u.(query := map[], fragment := ParamFragment(params))
    else u
  }

  /** For `code` the parameters are the new query and the fragment is kept. */
  lemma PlaceParamsCode(u: URL, state: string, data: Data)
    ensures PlaceParams(u, Code, state, data) == URL(u.base, RedirectParams(u.query, state, data), u.fragment)
  {
  }

  /** For `token` the query is emptied and the parameters become the fragment. */
  lemma PlaceParamsToken(u: URL, state: string, data: Data)
    ensures PlaceParams(u, Token, state, data) == URL(u.base, map[], ParamFragment(RedirectParams(u.query, state, data)))
  {
  }

  /** Any other response type leaves the parsed URI as it is. */
  lemma PlaceParamsOther(u: URL, rt: ResponseType, state: string, data: Data)
    requires rt != Code && rt != Token
    ensures PlaceParams(u, rt, state, data) == u
  {
  }

  /** An authorization-code redirect carries the code and the state in its query. */
  lemma CodeRedirectCarriesCodeAndState(u: URL, state: string, code: string)
    ensures var q := PlaceParams(u, Code, state, map["code" := Str(code)]).query;
      && "code" in q && q["code"] == [code]
      && (state != "" ==> "state" in q && q["state"] == [state])
  {
    RedirectParamsHaveData(u.query, state, map["code" := Str(code)]);
    if state != "" {
      RedirectParamsEchoState(u.query, state, map["code" := Str(code)]);
    }
  }

  /** The redirect of an authorize response: the parse error, or the parsed URI with the parameters placed. */
  function RedirectFor(srv: Server, req: AuthorizeRequest, data: Data): Result<URL, Error>
  {
    match srv.parseURL(req.redirectURI)
    case Ok(u) => Ok(PlaceParams(u, req.responseType, req.state, data))
    case Err(e) => Err(e)
  }

  /** GetRedirectURI: parse the redirect URI, set the state and the data in its query, then place them. */
  method GetRedirectURI(srv: Server, req: AuthorizeRequest, data: Data) returns (r: Result<URL, Error>)
    ensures srv.parseURL(req.redirectURI).Err? ==> r == Err(srv.parseURL(req.redirectURI).error)
    ensures srv.parseURL(req.redirectURI).Ok? ==>
      r == Ok(PlaceParams(srv.parseURL(req.redirectURI).value, req.responseType, req.state, data))
    ensures r == RedirectFor(srv, req, data)
  {
    var parsed := srv.parseURL(req.redirectURI);
    if parsed.Err? {
      return Err(parsed.error);
    }
    var u := parsed.value;
    var q := u.query;
    if req.state != "" {
      q := q["state" := [req.state]];
    }
    ghost var q0 := q;
    var rest := data.Keys;
    while rest != {}
      invariant rest <= data.Keys
      invariant q == SetAll(q0, data, data.Keys - rest)
      decreases rest
    {
      var k :| k in rest;
      ghost var done := data.Keys - rest;
      q := q[k := [Sprint(data[k])]];
      rest := rest - {k};
      assert q == SetAll(q0, data, done + {k}) by {
        assert data.Keys - rest == done + {k};
      }
    }
    assert data.Keys - rest == data.Keys;
    if req.responseType == Code {
      u := u.(query := q);
    } else if req.responseType == Token {
      u := u.(query := map[], fragment := ParamFragment(q));
    }
    r := Ok(u);
  }

  // ---------------------------------------------------------------- GetTokenData

  /** Truncating conversion of a duration in nanoseconds to whole seconds, as Go's `/` does. */
  function Seconds(d: int): (s: int)
    ensures d >= 0 ==> 0 <= s && s * NanosPerSecond <= d < (s + 1) * NanosPerSecond
    ensures d < 0 ==> s <= 0 && (s - 1) * NanosPerSecond < d <= s * NanosPerSecond
  {
    if d >= 0 then d / NanosPerSecond else -((-d) / NanosPerSecond)
  }

  /** The fields GetTokenData sets before consulting the extension hook. */
  function TokenFields(tokenType: string, ti: TokenInfo): Data
  {
    map["access_token" := Str(ti.access), "token_type" := Str(tokenType),
        "expires_in" := Int(Seconds(ti.accessExpiresIn))]
    + (if ti.scope != "" then map["scope" := Str(ti.scope)] else map[])
    + (if ti.refresh != "" then map["refresh_token" := Str(ti.refresh)] else map[])
  }

  /** The token response: the token fields, with extension fields added only under keys not already set. */
  function TokenData(srv: Server, ti: TokenInfo): Data
  {
    var fields := TokenFields(srv.config.tokenType, ti);
    match srv.hooks.extensionFields
    case None => fields
    case Some(ext) => ext(ti) + fields
  }

  /** The token response always carries the access token, the type and the lifetime; scope and refresh only when non-empty. */
  lemma TokenDataFields(srv: Server, ti: TokenInfo)
    ensures var d := TokenData(srv, ti);
      && "access_token" in d && d["access_token"] == Str(ti.access)
      && "token_type" in d && d["token_type"] == Str(srv.config.tokenType)
      && "expires_in" in d && d["expires_in"] == Int(Seconds(ti.accessExpiresIn))
      && (ti.scope != "" ==> "scope" in d && d["scope"] == Str(ti.scope))
      && (ti.refresh != "" ==> "refresh_token" in d && d["refresh_token"] == Str(ti.refresh))
  {
  }

  /** Without the extension hook, scope and refresh_token are present exactly when non-empty, and nothing else is. */
  lemma TokenDataOmitsEmpty(srv: Server, ti: TokenInfo)
    requires srv.hooks.extensionFields.None?
    ensures ("scope" in TokenData(srv, ti)) == (ti.scope != "")
    ensures ("refresh_token" in TokenData(srv, ti)) == (ti.refresh != "")
    ensures TokenData(srv, ti).Keys <= {"access_token", "token_type", "expires_in", "scope", "refresh_token"}
  {
  }

  /** Extension fields never overwrite a key that is already set, and every other extension field is added. */
  lemma TokenDataExtensionsDoNotOverwrite(srv: Server, ti: TokenInfo)
    requires srv.hooks.extensionFields.Some?
    ensures var fields := TokenFields(srv.config.tokenType, ti);
      var ext := srv.hooks.extensionFields.value(ti);
      var d := TokenData(srv, ti);
      && d.Keys == fields.Keys + ext.Keys
      && (forall k :: k in fields ==> d[k] == fields[k])
      && (forall k :: k in ext && k !in fields ==> d[k] == ext[k])
  {
  }

  /** The token fields with the extension fields under the keys in `done` added where free. */
  function AddExtensions(fields: Data, ext: Data, done: set<string>): Data
    requires done <= ext.Keys
  {
    map k | k in fields.Keys + done :: if k in fields then fields[k] else ext[k]
  }

  lemma AddExtensionsStep(fields: Data, ext: Data, done: set<string>, k: string)
    requires done <= ext.Keys && k in ext && k !in done
    ensures var d := AddExtensions(fields, ext, done);
      AddExtensions(fields, ext, done + {k}) == if k in d then d else d[k := ext[k]]
  {
  }

  lemma AddExtensionsAll(fields: Data, ext: Data)
    ensures AddExtensions(fields, ext, ext.Keys) == ext + fields
  {
  }

  /** GetTokenData: build the token fields key by key, then add each extension field whose key is free. */
  method GetTokenData(srv: Server, ti: TokenInfo) returns (data: Data)
    ensures data == TokenData(srv, ti)
  {
    data := map["access_token" := Str(ti.access), "token_type" := Str(srv.config.tokenType),
                "expires_in" := Int(Seconds(ti.accessExpiresIn))];
    if ti.scope != "" {
      data := data["scope" := Str(ti.scope)];
    }
    if ti.refresh != "" {
      data := data["refresh_token" := Str(ti.refresh)];
    }
    ghost var fields := data;
    assert fields == TokenFields(srv.config.tokenType, ti);
    if srv.hooks.extensionFields.Some? {
      var ext := srv.hooks.extensionFields.value(ti);
      var rest := ext.Keys;
      assert AddExtensions(fields, ext, {}) == fields;
      while rest != {}
        invariant rest <= ext.Keys
        invariant data == AddExtensions(fields, ext, ext.Keys - rest)
        decreases rest
      {
        var k :| k in rest;
        AddExtensionsStep(fields, ext, ext.Keys - rest, k);
        assert ext.Keys - (rest - {k}) == (ext.Keys - rest) + {k};
        if k !in data {
          data := data[k := ext[k]];
        }
        rest := rest - {k};
      }
      assert ext.Keys - rest == ext.Keys;
      AddExtensionsAll(fields, ext);
    }
  }

  /** GetAuthorizeData: the code alone for `code`, the token data for any other response type. */
  method GetAuthorizeData(srv: Server, rt: ResponseType, ti: TokenInfo) returns (data: Data)
    ensures rt == Code ==> data == map["code" := Str(ti.code)]
    ensures rt != Code ==> data == TokenData(srv, ti)
  {
    if rt == Code {
      return map["code" := Str(ti.code)];
    }
    data := GetTokenData(srv, ti);
  }

  // ---------------------------------------------------------------- GetErrorData

  /**
   * The error record GetErrorData settles on: the table entry of a known error; for any
   * other error the internal-error hook's response, or server_error when the hook gives
   * none or one without an error; then the response-error hook's rewrite.
   */
  function ErrorResponseFor(srv: Server, err: Error): ErrorResponse
  {
    var t := srv.errors;
    var re :=
      if err in t.descriptions then
        EmptyResponse.(error := Some(err), description := t.descriptions[err], statusCode := StatusCodeOf(t, err))
      else
        var fromHook :=
          match srv.hooks.internalError
          case Some(fn) => (match fn(err) case Some(v) => v case None => EmptyResponse)
          case None => EmptyResponse;
        if fromHook.error.None? then
          fromHook.(error := Some(ServerError), description := DescriptionOf(t, ServerError),
                    statusCode := StatusCodeOf(t, ServerError))
        else fromHook;
    match srv.hooks.responseError
    case Some(fn) => fn(re)
    case None => re
  }

  /** A known error takes its description and status from the tables and nothing else. */
  lemma KnownErrorResponse(srv: Server, err: Error)
    requires err in srv.errors.descriptions && srv.hooks.responseError.None?
    ensures ErrorResponseFor(srv, err) ==
      ErrorResponse(Some(err), 0, srv.errors.descriptions[err], "", StatusCodeOf(srv.errors, err), map[])
  {
  }

  /** An unknown error becomes server_error unless the internal-error hook supplies a response carrying an error. */
  lemma UnknownErrorResponse(srv: Server, err: Error)
    requires err !in srv.errors.descriptions && srv.hooks.responseError.None?
    ensures var re := ErrorResponseFor(srv, err);
      if srv.hooks.internalError.Some? && srv.hooks.internalError.value(err).Some?
         && srv.hooks.internalError.value(err).value.error.Some?
      then re == srv.hooks.internalError.value(err).value
      else re.error == Some(ServerError) && re.description == DescriptionOf(srv.errors, ServerError)
           && re.statusCode == StatusCodeOf(srv.errors, ServerError)
    ensures var re := ErrorResponseFor(srv, err);
      srv.hooks.internalError.Some? && srv.hooks.internalError.value(err).Some? ==>
        var v := srv.hooks.internalError.value(err).value;
        re.errorCode == v.errorCode && re.uri == v.uri && re.header == v.header
  {
  }

  /** The response-error hook rewrites the record that would be settled on without it. */
  lemma ResponseErrorRewrites(srv: Server, err: Error)
    requires srv.hooks.responseError.Some?
    ensures ErrorResponseFor(srv, err) ==
      srv.hooks.responseError.value(ErrorResponseFor(srv.(hooks := srv.hooks.(responseError := None)), err))
  {
  }

  /** With no hooks, an error missing from the tables is reported as a bare server_error. */
  lemma UnknownErrorWithoutHooks(srv: Server, err: Error)
    requires err !in srv.errors.descriptions
    requires srv.hooks.responseError.None? && srv.hooks.internalError.None?
    ensures ErrorResponseFor(srv, err) ==
      ErrorResponse(Some(ServerError), 0, DescriptionOf(srv.errors, ServerError), "",
                    StatusCodeOf(srv.errors, ServerError), map[])
  {
  }

  /** The outputs of GetErrorData for an error: each optional key present only when its field is set, and a positive status. */
  ghost predicate IsErrorData(srv: Server, err: Error, data: Data, status: int, header: Header)
  {
    var re := ErrorResponseFor(srv, err);
    && data.Keys <= {"error", "error_code", "error_description", "error_uri"}
    && ("error" in data <==> re.error.Some?)
    && (re.error.Some? ==> data["error"] == Str(ErrorText(re.error.value)))
    && ("error_code" in data <==> re.errorCode != 0)
    && (re.errorCode != 0 ==> data["error_code"] == Int(re.errorCode))
    && ("error_description" in data <==> re.description != "")
    && (re.description != "" ==> data["error_description"] == Str(re.description))
    && ("error_uri" in data <==> re.uri != "")
    && (re.uri != "" ==> data["error_uri"] == Str(re.uri))
    && status == (if re.statusCode > 0 then re.statusCode else 500)
    && header == re.header
  }

  /** The error data map of an error: one key per field of its error record that is set. */
  function ErrorData(srv: Server, err: Error): Data
  {
    ResponseData(ErrorResponseFor(srv, err))
  }

  /** The data map of an error record: one key per field that is set. */
  function ResponseData(re: ErrorResponse): Data
  {
    (if re.error.Some? then map["error" := Str(ErrorText(re.error.value))] else map[])
    + (if re.errorCode != 0 then map["error_code" := Int(re.errorCode)] else map[])
    + (if re.description != "" then map["error_description" := Str(re.description)] else map[])
    + (if re.uri != "" then map["error_uri" := Str(re.uri)] else map[])
  }

  /** The status code of an error response: the record's, or 500 when it sets none. */
  function ErrorStatus(srv: Server, err: Error): int
  {
    var re := ErrorResponseFor(srv, err);
    if re.statusCode > 0 then re.statusCode else 500
  }

  /** The error data map and status have the shape IsErrorData describes. */
  lemma ErrorDataShape(srv: Server, err: Error)
    ensures IsErrorData(srv, err, ErrorData(srv, err), ErrorStatus(srv, err), ErrorResponseFor(srv, err).header)
    ensures ErrorStatus(srv, err) > 0
  {
  }

  /** The first half of GetErrorData: fill the error record step by step and let the hooks rewrite it. */
  method FillErrorResponse(srv: Server, err: Error) returns (re: ErrorResponse)
    ensures re == ErrorResponseFor(srv, err)
  {
    re := EmptyResponse;
    if err in srv.errors.descriptions {
      re := re.(error := Some(err));
      re := re.(description := srv.errors.descriptions[err]);
      re := re.(statusCode := StatusCodeOf(srv.errors, err));
    } else {
      if srv.hooks.internalError.Some? {
        var v := srv.hooks.internalError.value(err);
        if v.Some? {
          re := v.value;
        }
      }
      if re.error.None? {
        re := re.(error := Some(ServerError));
        re := re.(description := DescriptionOf(srv.errors, ServerError));
        re := re.(statusCode := StatusCodeOf(srv.errors, ServerError));
      }
    }
    if srv.hooks.responseError.Some? {
      re := srv.hooks.responseError.value(re);
    }
  }

  /** GetErrorData: the error record, then the data map built key by key and the status. */
  method GetErrorData(srv: Server, err: Error) returns (data: Data, status: int, header: Header)
    ensures data == ErrorData(srv, err) && status == ErrorStatus(srv, err)
    ensures IsErrorData(srv, err, data, status, header)
    ensures status > 0
    ensures err in srv.errors.descriptions && srv.hooks.responseError.None? ==>
      && data["error"] == Str(ErrorText(err))
      && "error_code" !in data && "error_uri" !in data
      && status == (if StatusCodeOf(srv.errors, err) > 0 then StatusCodeOf(srv.errors, err) else 500)
  {
    var re := FillErrorResponse(srv, err);
    data := map[];
    if re.error.Some? {
      data := data["error" := Str(ErrorText(re.error.value))];
    }
    ghost var d1 := data;
    if re.errorCode != 0 {
      data := data["error_code" := Int(re.errorCode)];
    }
    assert data == d1 + (if re.errorCode != 0 then map["error_code" := Int(re.errorCode)] else map[]);
    ghost var d2 := data;
    if re.description != "" {
      data := data["error_description" := Str(re.description)];
    }
    assert data == d2 + (if re.description != "" then map["error_description" := Str(re.description)] else map[]);
    ghost var d3 := data;
    if re.uri != "" {
      data := data["error_uri" := Str(re.uri)];
    }
    assert data == d3 + (if re.uri != "" then map["error_uri" := Str(re.uri)] else map[]);
    status := 500;
    if re.statusCode > 0 {
      status := re.statusCode;
    }
    header := re.header;
    assert data == ResponseData(re);
    ErrorDataShape(srv, err);
  }
}
