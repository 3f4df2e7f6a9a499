/**
 * The JSON Web Token service, as an oracle.
 *
 * `sign` and `verify` are whatever the configured service does at the moment
 * of the call (its secret and its clock are inside it). A failed `verify`
 * throws an error whose `name` the caller inspects.
 */
module Jwt {
  import opened Wrappers

  /** The claims the service signs: `{ email, sub, username }`. */
  datatype JwtPayload = JwtPayload(email: string, sub: int, username: string)

  /** A thrown JavaScript error, reduced to the two fields callers read. */
  datatype Thrown = Thrown(name: string, message: string)

  /** The names of the errors `jwtService.verify` throws. */
  const TOKEN_EXPIRED_ERROR := "TokenExpiredError"
  const JSON_WEB_TOKEN_ERROR := "JsonWebTokenError"
  const NOT_BEFORE_ERROR := "NotBeforeError"

  /** The `expiresIn` options the service passes when signing. */
  const ACCESS_EXPIRES_IN := "15m"
  const REFRESH_EXPIRES_IN := "7d"

  /**
   * `sign(payload, expiresIn)` returns a signed token; `verify(token)` returns
   * the payload or the error it throws.
   */
  datatype JwtService = JwtService(
    sign: (JwtPayload, string) -> string,
    verify: string -> Result<JwtPayload, Thrown>)

  /**
   * The property the service is trusted with: a refresh token it has just
   * signed verifies to the payload it was signed with.
   */
  ghost predicate AcceptsFreshRefreshToken(jwt: JwtService, payload: JwtPayload)
  {
    jwt.verify(jwt.sign(payload, REFRESH_EXPIRES_IN)) == Ok(payload)
  }
}
