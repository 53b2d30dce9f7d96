/** The records of `internal/models` and `internal/dtos`, and the constants they live by. Instants and
    durations are whole seconds on one clock. */
module Entities {
  import opened Prelude

  const SESSION_TTL: nat := 30 * 24 * 3600
  const AUTH_CODE_TTL: nat := 60
  const ACCESS_TOKEN_TTL: nat := 15 * 60
  const REFRESH_TOKEN_TTL: nat := 7 * 24 * 3600

  datatype User = User(id: string, email: string, passwordHash: string)

  /** `secretHash` is "" for a public client. */
  datatype Client = Client(
    id: string,
    name: string,
    secretHash: string,
    redirectURIs: seq<string>,
    scopes: seq<string>,
    grantTypes: seq<string>,
    isFirstParty: bool)

  datatype Session = Session(userID: string, email: string, createdAt: int)

  datatype AuthCode = AuthCode(
    clientID: string,
    userID: string,
    redirectURI: string,
    scope: seq<string>,
    challenge: string,
    challengeMethod: string,
    nonce: string,
    createdAt: int)

  datatype RefreshToken = RefreshToken(
    id: string,
    userID: string,
    clientID: string,
    scope: seq<string>,
    tokenHash: string,
    expiresAt: int,
    revokedAt: Option<int>)

  /** The claims of an access token. Signing is left out: a token is its claims. */
  datatype Claims = Claims(
    userID: string,
    email: string,
    clientID: string,
    scope: string,
    tokenID: string,
    issuedAt: int,
    expiresAt: int)

  datatype TokenRequest = TokenRequest(
    grantType: string,
    code: string,
    redirectURI: string,
    codeVerifier: string,
    clientID: string,
    clientSecret: string)

  datatype TokenResponse = TokenResponse(
    accessToken: Claims,
    tokenType: string,
    expiresIn: int,
    scope: string,
    refreshToken: string)

  datatype AuthorizeRequest = AuthorizeRequest(
    clientID: string,
    redirectURI: string,
    scope: string,
    state: string,
    challenge: string,
    challengeMethod: string,
    nonce: string,
    prompt: string)

  datatype AuthorizeAction = IssueCode | RequireLogin | ErrorToClient | RejectDirect

  datatype AuthorizeResult = AuthorizeResult(
    action: AuthorizeAction,
    redirectURI: string,
    state: string,
    code: string,
    oauthError: string,
    message: string)

  datatype RegisterClientRequest = RegisterClientRequest(
    name: string,
    redirectURIs: seq<string>,
    scopes: seq<string>,
    grantTypes: seq<string>,
    isFirstParty: bool,
    isPublic: bool)

  datatype RegisterClientResponse = RegisterClientResponse(clientID: string, clientSecret: string, name: string)

  /** The errors the packages tell apart. `Infrastructure` stands for every wrapped error of a
      repository call, the hashing of an over-long password, or signing. */
  datatype Error =
    | InvalidGrant
    | InvalidClient
    | UnsupportedGrantType
    | PublicClientCredentialsGrant
    | EmailTaken
    | EmailOrPasswordWrong
    | RefreshTokenNotFound
    | RefreshTokenExpired
    | NotImplemented
    | KeyNotFound
    | AuthCodeNotFound
    | SessionNotFound
    | Infrastructure

  datatype Result<+T> = Ok(value: T) | Err(error: Error)
}
