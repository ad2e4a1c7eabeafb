/**
 * The ledger side of the server: the hash-derived record identifiers and the two record
 * kinds that the server writes to and reads from the ledger.
 *
 * genHashS256 is the parameter `h` (base64 of SHA-256 in the source, here any function).
 * The ledger is a pair of maps from identifier to record; a read of an identifier that
 * is not there yields the zero-valued record, as a Go struct left unfilled.
 */
module Ledger {
  import opened OAuth2

  type Hasher = string -> string

  const CodePrefix := "CI_"
  const TokenPrefix := "TI_"

  /** CodeInfo as stored on the ledger; the raw code never appears, only its hash. */
  datatype CodeRecord = CodeRecord(
    infoType: string,
    idCode: string,
    didRO: string,
    didClient: string,
    scope: string,
    hashCode: string,
    timeIssued: Time,
    uriRedirection: string,
    condition: string,
    idToken: string)

  /** TokenInfo as stored on the ledger. */
  datatype TokenRecord = TokenRecord(
    infoType: string,
    idToken: string,
    didRO: string,
    didClient: string,
    scope: string,
    hashToken: string,
    timeIssued: Time,
    timeExpiration: Time,
    uriRedirection: string,
    condition: string)

  const EmptyCodeRecord := CodeRecord("", "", "", "", "", "", 0, "", "", "")
  const EmptyTokenRecord := TokenRecord("", "", "", "", "", "", 0, 0, "", "")

  datatype LedgerState = LedgerState(codes: map<string, CodeRecord>, tokens: map<string, TokenRecord>)

  /** The identifier of the record of an authorization code: "CI_" followed by the code's hash. */
  function CodeId(h: Hasher, code: string): (id: string)
    ensures |id| == |CodePrefix| + |h(code)|
    ensures id[..|CodePrefix|] == CodePrefix && id[|CodePrefix|..] == h(code)
  {
    CodePrefix + h(code)
  }

  /** The identifier of the record of an access token: "TI_" followed by the token's hash. */
  function TokenId(h: Hasher, token: string): (id: string)
    ensures |id| == |TokenPrefix| + |h(token)|
    ensures id[..|TokenPrefix|] == TokenPrefix && id[|TokenPrefix|..] == h(token)
  {
    TokenPrefix + h(token)
  }

  /** bcconnector.ReadCodeInfo. */
  function ReadCodeInfo(l: LedgerState, id: string): CodeRecord
  {
    if id in l.codes then l.codes[id] else EmptyCodeRecord
  }

  /** bcconnector.ReadTokenInfo. */
  function ReadTokenInfo(l: LedgerState, id: string): TokenRecord
  {
    if id in l.tokens then l.tokens[id] else EmptyTokenRecord
  }

  /** The ledger once a CreateCodeInfo write has landed. */
  function WriteCodeRecord(l: LedgerState, rec: CodeRecord): (l': LedgerState)
    ensures ReadCodeInfo(l', rec.idCode) == rec
    ensures l'.tokens == l.tokens
    ensures forall id :: id != rec.idCode ==> ReadCodeInfo(l', id) == ReadCodeInfo(l, id)
  {
    l.(codes := l.codes[rec.idCode := rec])
  }

  /** The ledger once a CreateTokenInfo write has landed. */
  function WriteTokenRecord(l: LedgerState, rec: TokenRecord): (l': LedgerState)
    ensures ReadTokenInfo(l', rec.idToken) == rec
    ensures l'.codes == l.codes
    ensures forall id :: id != rec.idToken ==> ReadTokenInfo(l', id) == ReadTokenInfo(l, id)
  {
    l.(tokens := l.tokens[rec.idToken := rec])
  }

  /** Two codes share a ledger identifier exactly when their hashes agree. */
  lemma CodeIdInjective(h: Hasher, a: string, b: string)
    ensures CodeId(h, a) == CodeId(h, b) <==> h(a) == h(b)
  {
    if CodeId(h, a) == CodeId(h, b) {
      assert h(a) == CodeId(h, a)[|CodePrefix|..] == CodeId(h, b)[|CodePrefix|..] == h(b);
    }
  }

  /** Two tokens share a ledger identifier exactly when their hashes agree. */
  lemma TokenIdInjective(h: Hasher, a: string, b: string)
    ensures TokenId(h, a) == TokenId(h, b) <==> h(a) == h(b)
  {
    if TokenId(h, a) == TokenId(h, b) {
      assert h(a) == TokenId(h, a)[|TokenPrefix|..] == TokenId(h, b)[|TokenPrefix|..] == h(b);
    }
  }

  /** A code identifier is never a token identifier, whatever the two secrets are. */
  lemma CodeAndTokenIdsDiffer(h: Hasher, code: string, token: string)
    ensures CodeId(h, code) != TokenId(h, token)
  {
    assert CodeId(h, code)[0] == 'C' && TokenId(h, token)[0] == 'T';
  }
}
