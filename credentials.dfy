/** The credential record shared by both client variants (index.js and
    lib/component.js), its expiry arithmetic and its validity test, with the
    result types every operation of the model returns. */
module Credentials {

  datatype Option<+T> = None | Some(value: T)

  /** What a failed step reports. */
  datatype Error =
    /** A `WechatAPIError`: the upstream answered with a nonzero `errcode`
        (code and message taken from the envelope), or with no body (code -1). */
    | ApiError(code: int, message: string)
    /** An `Error` the client itself throws (a missing `getToken`, reading a
        field of an absent token). */
    | Thrown(message: string)
    /** A collaborator's own failure (ticket provider, token store, transport),
        handed on unchanged. */
    | Raised(detail: string)

  datatype Result<+T> = Success(value: T) | Failure(error: Error)

  /** The `errcode` with which the upstream rejects an access token it no
      longer accepts (`invalid credential`). */
  const InvalidCredential: int := 40001

  /** The outcome of a step that yields nothing but may fail (a `saveToken`). */
  datatype Outcome = Pass | Fail(error: Error)

  /** A credential: the bearer string, the absolute expiry in milliseconds since
      the epoch and, for authorizer tokens, the refresh token. The component's
      own token never carries one. */
  datatype Token = Token(accessToken: string, expireTime: int, refreshToken: Option<string>)

  /** Seconds taken off the server-reported lifetime, so that a token is not
      used at the very moment it lapses. */
  const SkewSeconds: int := 10

  /** The expiry both variants compute: `now + (expiresIn - 10) * 1000`. */
  function ExpireTime(now: int, expiresIn: int): int
  {
    now + (expiresIn - SkewSeconds) * 1000
  }

  /** `isTokenValid`: a token is usable when it is present, its access token is
      a non-empty string and the clock has not yet reached its expiry. */
  predicate IsTokenValid(token: Option<Token>, now: int)
  {
    token.Some? && token.value.accessToken != "" && now < token.value.expireTime
  }

  /** A JavaScript string is truthy exactly when it is present and non-empty. */
  predicate Truthy(s: Option<string>)
  {
    s.Some? && s.value != ""
  }

  /** `mapToken`: a credential whose expiry is ten seconds ahead of the server's,
      carrying the refresh token only when one was given. */
  function MapToken(now: int, accessToken: string, expiresIn: int, refreshToken: Option<string>): Token
  {
    Token(accessToken, ExpireTime(now, expiresIn), if Truthy(refreshToken) then refreshToken else None)
  }

  /** The expiry lies exactly ten seconds before the server-reported one, and the
      refresh token is kept exactly when it is truthy. */
  lemma MapTokenFields(now: int, accessToken: string, expiresIn: int, refreshToken: Option<string>)
    ensures MapToken(now, accessToken, expiresIn, refreshToken).accessToken == accessToken
    ensures MapToken(now, accessToken, expiresIn, refreshToken).expireTime + SkewSeconds * 1000
            == now + expiresIn * 1000
    ensures MapToken(now, accessToken, expiresIn, refreshToken).expireTime < now + expiresIn * 1000
    ensures MapToken(now, accessToken, expiresIn, refreshToken).refreshToken.Some? <==> Truthy(refreshToken)
    ensures Truthy(refreshToken) ==> MapToken(now, accessToken, expiresIn, refreshToken).refreshToken == refreshToken
  {
  }

  /** Validity holds on an interval that ends, strictly, at the expiry: a token
      valid at some instant is valid at every earlier one, and no token is valid
      at or after its expiry time or when it is absent. */
  lemma ValidityWindow(token: Option<Token>, earlier: int, later: int)
    requires earlier <= later
    ensures IsTokenValid(token, later) ==> IsTokenValid(token, earlier)
    ensures token.Some? && token.value.expireTime <= later ==> !IsTokenValid(token, later)
    ensures token.None? ==> !IsTokenValid(token, later)
  {
  }

  /** A freshly mapped token is usable at the instant it was minted exactly when
      its access token is non-empty and the server granted more than ten seconds. */
  lemma FreshTokenValidity(now: int, accessToken: string, expiresIn: int, refreshToken: Option<string>)
    ensures IsTokenValid(Some(MapToken(now, accessToken, expiresIn, refreshToken)), now)
            <==> accessToken != "" && expiresIn > SkewSeconds
  {
  }
}
