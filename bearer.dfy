/**
 * Bearer-token checking (section 2.1 and 2.2 of RFC 6750): extraction of the token from
 * the Authorization header or the access_token form value, and acceptance of a token
 * only when the ledger record under its identifier stores its hash.
 */
module Bearer {
  import opened Wrappers
  import opened Errors
  import opened Http
  import opened OAuth2
  import opened Ledger
  import Token

  const BearerPrefix := "Bearer "

  /** Whether a header value starts with "Bearer ". */
  predicate HasBearerPrefix(auth: string)
  {
    |BearerPrefix| <= |auth| && auth[..|BearerPrefix|] == BearerPrefix
  }

  /** BearerAuth: the remainder of a "Bearer " header, else the access_token form value; ok when non-empty. */
  function BearerAuth(r: Request): (string, bool)
  {
    var auth := HeaderValue(r, "Authorization");
    var token :=
      if auth != "" && HasBearerPrefix(auth) then auth[|BearerPrefix|..]
      else FormValue(r, "access_token");
    (token, token != "")
  }

  /** A header that starts with "Bearer " supplies the token, even when the remainder is empty. */
  lemma BearerFromHeader(r: Request, t: string)
    requires HeaderValue(r, "Authorization") == BearerPrefix + t
    ensures BearerAuth(r) == (t, t != "")
  {
    var auth := BearerPrefix + t;
    assert auth[..|BearerPrefix|] == BearerPrefix && auth[|BearerPrefix|..] == t;
  }

  /** Without a "Bearer " header the token is the access_token form value. */
  lemma BearerFromForm(r: Request)
    requires !HasBearerPrefix(HeaderValue(r, "Authorization"))
    ensures BearerAuth(r) == (FormValue(r, "access_token"), FormValue(r, "access_token") != "")
  {
  }

  /** LoadAccessTokeninBAS: accept exactly when the record read under "TI_" + H(t) stores H(t). */
  function LoadAccessTokeninBAS(h: Hasher, l: LedgerState, accessToken: string): Result<(), Error>
  {
    var hash := h(accessToken);
    var rec := ReadTokenInfo(l, TokenPrefix + hash);
    if rec.hashToken != hash then Err(InvalidAccessToken) else Ok(())
  }

  /** ValidationBearerToken: a missing token is rejected, any other is checked against the ledger. */
  function ValidationBearerToken(h: Hasher, l: LedgerState, r: Request): Result<(), Error>
  {
    var (accessToken, ok) := BearerAuth(r);
    if !ok then Err(InvalidAccessToken) else LoadAccessTokeninBAS(h, l, accessToken)
  }

  /** A token that is present, from the header or the form, is judged by the ledger check alone. */
  lemma PresentTokenChecked(h: Hasher, l: LedgerState, r: Request)
    requires BearerAuth(r).1
    ensures ValidationBearerToken(h, l, r) == LoadAccessTokeninBAS(h, l, BearerAuth(r).0)
  {
  }

  /** A form-supplied access_token, with no "Bearer " header, is judged by the ledger check. */
  lemma FormTokenChecked(h: Hasher, l: LedgerState, r: Request)
    requires !HasBearerPrefix(HeaderValue(r, "Authorization")) && FormValue(r, "access_token") != ""
    ensures ValidationBearerToken(h, l, r) == LoadAccessTokeninBAS(h, l, FormValue(r, "access_token"))
  {
    BearerFromForm(r);
  }

  /**
   * A token is accepted exactly when the ledger holds a record under its identifier
   * storing its hash, or holds none and the hash is empty (the zero record's hash);
   * a token that is not accepted is an invalid access token.
   */
  lemma LoadAccessTokenAccepts(h: Hasher, l: LedgerState, t: string)
    ensures LoadAccessTokeninBAS(h, l, t).Ok? <==>
      if TokenId(h, t) in l.tokens then l.tokens[TokenId(h, t)].hashToken == h(t) else h(t) == ""
    ensures LoadAccessTokeninBAS(h, l, t).Err? ==> LoadAccessTokeninBAS(h, l, t).error == InvalidAccessToken
  {
  }

  /** A token with no record is rejected, since a real hash is never empty. */
  lemma MissingRecordRejected(h: Hasher, l: LedgerState, t: string)
    requires TokenId(h, t) !in l.tokens && h(t) != ""
    ensures LoadAccessTokeninBAS(h, l, t) == Err(InvalidAccessToken)
  {
  }

  /** A request with no token at all is rejected before the ledger is read. */
  lemma NoTokenRejected(h: Hasher, l: LedgerState, r: Request)
    requires !BearerAuth(r).1
    ensures ValidationBearerToken(h, l, r) == Err(InvalidAccessToken)
    ensures forall l': LedgerState :: ValidationBearerToken(h, l', r) == Err(InvalidAccessToken)
  {
  }

  /** The record HandleTokenRequest builds for an access token, once on the ledger, makes that token accepted. */
  lemma IssuedTokenAccepted(h: Hasher, l: LedgerState, codeRecord: CodeRecord, ti: TokenInfo,
                            tgr: TokenGenerateRequest, r: Request)
    requires ti.access != "" && HeaderValue(r, "Authorization") == BearerPrefix + ti.access
    ensures var l' := WriteTokenRecord(l, Token.TokenRecordFor(h, codeRecord, ti, tgr));
      && LoadAccessTokeninBAS(h, l', ti.access) == Ok(())
      && ValidationBearerToken(h, l', r) == Ok(())
  {
    BearerFromHeader(r, ti.access);
  }

  /**
   * Once the record of token t has landed, a presented token t' whose hash differs is
   * still judged only by its own identifier: t's record never makes t' accepted.
   */
  lemma OtherTokenUnaffected(h: Hasher, l: LedgerState, rec: TokenRecord, t: string, t': string)
    requires rec.idToken == TokenId(h, t) && h(t') != h(t)
    ensures LoadAccessTokeninBAS(h, WriteTokenRecord(l, rec), t') == LoadAccessTokeninBAS(h, l, t')
  {
    TokenIdInjective(h, t, t');
  }
}
