/**
 The rows of the four OAuth tables (src/models.py), and the two one-way functions applied to
 secrets, taken as injective.
 */
module OAuthTables {
  import opened Prelude

  /** hash_token: SHA-256 of a raw token, injective. */
  datatype Hash = Sha256(token: string)

  /** A stored code challenge: the S256 image of a verifier, or some other text. */
  datatype Challenge = S256(verifier: string) | OtherText(text: string)

  /** The resource column: a pending session keeps its parameters there, an issued code the plain value. */
  datatype Resource = Session(resource: Option<string>) | Plain(resource: Option<string>)

  datatype ClientRow = ClientRow(owner: Option<string>, isPublic: bool, name: string, active: bool)

  datatype CodeRow = CodeRow(
    client: string, redirectUri: Option<string>, scopes: seq<string>, challenge: Option<Challenge>,
    resource: Resource, expiresAt: int, user: Option<string>)

  datatype AccessRow = AccessRow(
    client: string, user: Option<string>, scopes: seq<string>, resource: Resource, expiresAt: Option<int>, revoked: bool)

  datatype RefreshRow = RefreshRow(
    client: string, user: Option<string>, scopes: seq<string>, access: Option<Hash>, expiresAt: Option<int>, revoked: bool)

  type Clients = map<string, ClientRow>
  type Codes = map<string, CodeRow>
  type AccessTokens = map<Hash, AccessRow>
  type RefreshTokens = map<Hash, RefreshRow>

  /** The database as the provider sees it; keys are the primary keys of the tables. */
  datatype Tables = Tables(clients: Clients, codes: Codes, access: AccessTokens, refresh: RefreshTokens)

  /** A column that is neither NULL nor empty. */
  predicate Truthy(column: Option<string>) {
    column.Some? && column.value != ""
  }

  /** The PKCE check of the exchange (section 4.6 of RFC 7636): no challenge, or the matching verifier. */
  predicate PkcePasses(challenge: Option<Challenge>, verifier: Option<string>) {
    challenge.None? || challenge == Some(OtherText(""))
    || (Truthy(verifier) && challenge == Some(S256(verifier.value)))
  }
}
