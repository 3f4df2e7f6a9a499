/**
 * The authentication service: registration, login, refresh-token rotation,
 * logout, token revocation and the password-reset flow, over the `users`
 * table it reads and updates.
 *
 * Every source of randomness (bcrypt salts, the reset token's random bytes),
 * the clock (`Date.now()` in milliseconds) and the JWT service are
 * parameters of the operations that use them. The two outbound mails
 * (reset link, password changed) have no effect on the table and are
 * assumed to be delivered: a failed send would reject the call after the
 * table has been updated.
 */
module Auth {
  import opened Wrappers
  import opened Crypto
  import opened Jwt
  import opened Hex
  import opened Users

  // Messages of the exceptions the service throws and of its replies.
  const USER_ALREADY_EXISTS := "User already exists"
  const INVALID_CREDENTIALS := "Invalid credentials"
  const INVALID_REFRESH_TOKEN := "Invalid refresh token"
  const REFRESH_TOKEN_EXPIRED := "Refresh token expired"
  const INVALID_REFRESH_TOKEN_FORMAT := "Invalid refresh token format"
  const INVALID_REFRESH_TOKEN_PREFIX := "Invalid refresh token: "
  const RESET_LINK_SENT := "If an account with that email exists, a password reset link has been sent."
  const INVALID_RESET_TOKEN := "Invalid or expired reset token"
  const RESET_TOKEN_EXPIRED := "Reset token has expired"
  const PASSWORD_RESET := "Password has been reset successfully"
  const LOGGED_OUT := "Logged out successfully"
  const TOKENS_REVOKED := "All tokens revoked successfully"

  /** The `name` of the `UnauthorizedException` the refresh path throws itself. */
  const UNAUTHORIZED_EXCEPTION := "UnauthorizedException"

  /** How long a reset token stays valid: one hour, in milliseconds. */
  const RESET_TOKEN_TTL_MS := 60 * 60 * 1000

  /** The exceptions the service throws, with their messages. */
  datatype AuthError = BadRequest(message: string) | Unauthorized(message: string)

  datatype TokenPair = TokenPair(accessToken: string, refreshToken: string)

  /** The reply to register, login and refresh. */
  datatype AuthResponse = AuthResponse(accessToken: string, refreshToken: string, user: PublicUser)

  /** The `{ message }` reply of the other operations. */
  datatype Reply = Reply(message: string)

  function PayloadOf(user: UserRecord): JwtPayload
  {
    JwtPayload(user.email, user.id, user.username)
  }

  /**
   * `generateTokens`: an access token valid for 15 minutes and a refresh
   * token valid for 7 days, both signed over the user's email, id (as `sub`)
   * and username. The claims are fixed field by field, so the pair is the
   * two signatures of `PayloadOf(user)`.
   */
  function GenerateTokens(user: UserRecord, jwt: JwtService): (tokens: TokenPair)
    ensures exists claims: JwtPayload ::
      && claims.email == user.email && claims.sub == user.id && claims.username == user.username
      && tokens.accessToken == jwt.sign(claims, ACCESS_EXPIRES_IN)
      && tokens.refreshToken == jwt.sign(claims, REFRESH_EXPIRES_IN)
  {
    TokenPair(jwt.sign(PayloadOf(user), ACCESS_EXPIRES_IN), jwt.sign(PayloadOf(user), REFRESH_EXPIRES_IN))
  }

  /** `hashRefreshToken`: a digest that accepts this refresh token and no other. */
  function HashRefreshToken(refreshToken: string, salt: Salt): (hashed: Digest)
    ensures BcryptCompare(refreshToken, hashed)
    ensures forall other :: BcryptCompare(other, hashed) ==> other == refreshToken
  {
    BcryptHash(refreshToken, salt)
  }

  /** `verifyRefreshToken`: the token is the one the stored digest was made from. */
  function VerifyRefreshToken(refreshToken: string, hashedToken: Digest): (ok: bool)
    ensures ok <==> hashedToken == HashRefreshToken(refreshToken, hashedToken.salt)
  {
    BcryptCompare(refreshToken, hashedToken)
  }

  /**
   * Rotation: once the stored digest is that of a new refresh token, the
   * previous token no longer verifies against it, unless the two tokens are
   * the same string (two tokens signed in the same second over the same
   * claims are).
   */
  lemma RotatedDigestRejectsPreviousToken(previous: string, next: string, salt: Salt)
    ensures VerifyRefreshToken(next, HashRefreshToken(next, salt))
    ensures VerifyRefreshToken(previous, HashRefreshToken(next, salt)) <==> previous == next
  {
  }

  /**
   * A JWT starts with its header and its claims, so two tokens signed for
   * the same user agree on a prefix that, for `a@x.com` with id 1, is
   * already 72 characters long. With bcryptjs's truncation, a digest of one
   * such token accepts the other: the refresh token a rotation replaced, or
   * the user's access token. The lemma holds for any two strings with this
   * prefix; the two below are the header and claims of tokens signed 15
   * minutes apart (`iat` 1700000000 and 1700000900, `exp` 7 days later),
   * with placeholders in place of the signatures.
   */
  const SHARED_JWT_PREFIX := "eyJhbGciOiJIUzI1NiIsInR5cCI6IkpXVCJ9.eyJlbWFpbCI6ImFAeC5jb20iLCJzdWIiOjE"

  lemma TruncatedDigestAcceptsReplacedToken(salt: Salt)
    ensures var previous := SHARED_JWT_PREFIX + "sInVzZXJuYW1lIjoiYSIsImlhdCI6MTcwMDAwMDAwMCwiZXhwIjoxNzAwNjA0ODAwfQ.signature1";
            var next := SHARED_JWT_PREFIX + "sInVzZXJuYW1lIjoiYSIsImlhdCI6MTcwMDAwMDkwMCwiZXhwIjoxNzAwNjA1NzAwfQ.signature2";
            && |SHARED_JWT_PREFIX| == BCRYPT_MAX_INPUT
            && previous != next
            && TruncatingCompare(previous, TruncatingHash(next, salt))
            && !VerifyRefreshToken(previous, HashRefreshToken(next, salt))
  {
    var previous := SHARED_JWT_PREFIX + "sInVzZXJuYW1lIjoiYSIsImlhdCI6MTcwMDAwMDAwMCwiZXhwIjoxNzAwNjA0ODAwfQ.signature1";
    var next := SHARED_JWT_PREFIX + "sInVzZXJuYW1lIjoiYSIsImlhdCI6MTcwMDAwMDkwMCwiZXhwIjoxNzAwNjA1NzAwfQ.signature2";
    assert previous[..BCRYPT_MAX_INPUT] == SHARED_JWT_PREFIX == next[..BCRYPT_MAX_INPUT];
    assert previous[|previous| - 1] != next[|next| - 1];
    SharedPrefixCollides(previous, next, salt);
  }

  /** What the refresh-token error the service throws itself looks like. */
  const INNER_REFRESH_FAILURE := Thrown(UNAUTHORIZED_EXCEPTION, INVALID_REFRESH_TOKEN)

  /** The `catch` of `refreshToken`: every error is rethrown as an `UnauthorizedException`. */
  function CatchRefreshError(e: Thrown): (message: string)
    ensures e.name == TOKEN_EXPIRED_ERROR ==> message == REFRESH_TOKEN_EXPIRED
    ensures e.name == JSON_WEB_TOKEN_ERROR ==> message == INVALID_REFRESH_TOKEN_FORMAT
    ensures e.name != TOKEN_EXPIRED_ERROR && e.name != JSON_WEB_TOKEN_ERROR ==>
      message == INVALID_REFRESH_TOKEN_PREFIX + e.message
  {
    if e.name == TOKEN_EXPIRED_ERROR then REFRESH_TOKEN_EXPIRED
    else if e.name == JSON_WEB_TOKEN_ERROR then INVALID_REFRESH_TOKEN_FORMAT
    else INVALID_REFRESH_TOKEN_PREFIX + e.message
  }

  /**
   * The errors thrown inside the `try` of `refreshToken` (unknown user, no
   * stored hash, hash mismatch) come out of the `catch` rewrapped.
   */
  lemma InnerRefreshFailureIsRewrapped()
    ensures CatchRefreshError(INNER_REFRESH_FAILURE) == "Invalid refresh token: Invalid refresh token"
  {
  }

  /** A token used before its `nbf` claim is reported with the library's own message. */
  lemma NotBeforeErrorIsRewrapped(message: string)
    ensures CatchRefreshError(Thrown(NOT_BEFORE_ERROR, message)) == INVALID_REFRESH_TOKEN_PREFIX + message
  {
  }

  /**
   * `user.resetPasswordExpires < new Date()`. JavaScript compares a missing
   * (null) expiry as the number 0.
   */
  function IsResetExpired(expires: Option<int>, now: nat): (expired: bool)
    ensures expires.Some? ==> (expired <==> now > expires.value)
    ensures expires == Some(now) ==> !expired
    ensures expires.None? ==> (expired <==> now > 0)
  {
    match expires
    case Some(e) => e < now
    case None => 0 < now
  }

  ghost predicate CollidesWith(u: UserRecord, username: string, email: string)
  {
    u.username == username || u.email == email
  }

  /** Some row already has this username or this email. */
  ghost predicate IsTaken(users: UserTable, username: string, email: string)
  {
    exists id :: id in users && CollidesWith(users[id], username, email)
  }

  ghost predicate CredentialsMatch(users: UserTable, id: int, email: string, password: string)
  {
    id in users && users[id].email == email && BcryptCompare(password, users[id].password)
  }

  ghost predicate HoldsResetToken(users: UserTable, id: int, token: string)
  {
    id in users && users[id].resetPasswordToken == Some(token)
  }

  /** The state a successful password reset leaves behind for user `id`. */
  ghost predicate PasswordWasReset(before: UserTable, after: UserTable, id: int, newPassword: string, salt: Salt)
    requires id in before
  {
    after == before[id := before[id].(password := BcryptHash(newPassword, salt),
                                      resetPasswordToken := None,
                                      resetPasswordExpires := None)]
  }

  /** The state `forgotPassword` leaves behind for user `id`. */
  ghost predicate ResetWasIssued(before: UserTable, after: UserTable, id: int, token: string, expires: int)
    requires id in before
  {
    after == before[id := before[id].(resetPasswordToken := Some(token),
                                      resetPasswordExpires := Some(expires))]
  }

  class AuthService {
    /** The `users` table, by primary key. */
    var users: UserTable
    /** The next value of the auto-generated primary key. */
    var nextId: int

    /**
     * Every row is stored under its own id, below the next id to hand out;
     * usernames and emails are unique (the columns' unique constraints); a
     * pending reset token always has an expiry.
     */
    ghost predicate Valid()
      reads this
    {
      && 1 <= nextId
      && (forall id :: id in users ==> users[id].id == id && 1 <= id < nextId)
      && (forall a, b :: a in users && b in users && users[a].username == users[b].username ==> a == b)
      && (forall a, b :: a in users && b in users && users[a].email == users[b].email ==> a == b)
      && (forall id :: id in users && users[id].resetPasswordToken.Some? ==> users[id].resetPasswordExpires.Some?)
    }

    constructor ()
      ensures Valid()
      ensures users == map[] && nextId == 1
    {
      users := map[];
      nextId := 1;
    }

    /** `register`. */
    method Register(username: string, email: string, password: string, jwt: JwtService,
                    passwordSalt: Salt, tokenSalt: Salt)
      returns (r: Result<AuthResponse, AuthError>)
      requires Valid()
      modifies this
      ensures Valid()
      ensures r.Err? <==> IsTaken(old(users), username, email)
      ensures r.Err? ==> r.error == BadRequest(USER_ALREADY_EXISTS) && users == old(users) && nextId == old(nextId)
      ensures r.Ok? ==>
        var id := old(nextId);
        && id !in old(users)
        && nextId == id + 1
        && users == old(users)[id := UserRecord(id, username, email, BcryptHash(password, passwordSalt),
                                              Some(HashRefreshToken(r.value.refreshToken, tokenSalt)), None, None)]
        && TokenPair(r.value.accessToken, r.value.refreshToken) == GenerateTokens(users[id], jwt)
        && r.value.user == PublicUser(id, username, email)
        && BcryptCompare(password, users[id].password)
        && VerifyRefreshToken(r.value.refreshToken, users[id].refreshToken.value)
    {
      var existing := FindOne(users, (u: UserRecord) => u.username == username || u.email == email);
      if existing.Some? {
        ghost var taken := existing.value;
        assert taken in old(users) && CollidesWith(old(users)[taken], username, email);
        assert IsTaken(old(users), username, email);
        return Err(BadRequest(USER_ALREADY_EXISTS));
      }
      var hashedPassword := BcryptHash(password, passwordSalt);
      // userRepository.save: the row gets the next primary key
      var saved := UserRecord(nextId, username, email, hashedPassword, None, None, None);
      users := users[saved.id := saved];
      nextId := nextId + 1;
      var tokens := GenerateTokens(saved, jwt);
      var hashedRefreshToken := HashRefreshToken(tokens.refreshToken, tokenSalt);
      users := WithRefreshToken(users, saved.id, Some(hashedRefreshToken));
      return Ok(AuthResponse(tokens.accessToken, tokens.refreshToken, PublicView(saved)));
    }

    /** `login`: one message for an unknown email and for a wrong password. */
    method Login(email: string, password: string, jwt: JwtService, tokenSalt: Salt)
      returns (r: Result<AuthResponse, AuthError>)
      requires Valid()
      modifies this
      ensures Valid() && nextId == old(nextId)
      ensures r.Ok? <==> exists id :: CredentialsMatch(old(users), id, email, password)
      ensures r.Err? ==> r.error == Unauthorized(INVALID_CREDENTIALS) && users == old(users)
      ensures r.Ok? ==>
        var id := r.value.user.id;
        && CredentialsMatch(old(users), id, email, password)
        && r.value.user == PublicView(old(users)[id])
        && TokenPair(r.value.accessToken, r.value.refreshToken) == GenerateTokens(old(users)[id], jwt)
        && users == WithRefreshToken(old(users), id, Some(HashRefreshToken(r.value.refreshToken, tokenSalt)))
    {
      var found := FindOne(users, (u: UserRecord) => u.email == email);
      if found.None? {
        return Err(Unauthorized(INVALID_CREDENTIALS));
      }
      var user := users[found.value];
      assert user.id == found.value;
      if !BcryptCompare(password, user.password) {
        assert forall id :: CredentialsMatch(users, id, email, password) ==> id == user.id;
        return Err(Unauthorized(INVALID_CREDENTIALS));
      }
      assert CredentialsMatch(users, user.id, email, password);
      var tokens := GenerateTokens(user, jwt);
      var hashedRefreshToken := HashRefreshToken(tokens.refreshToken, tokenSalt);
      users := WithRefreshToken(users, user.id, Some(hashedRefreshToken));
      return Ok(AuthResponse(tokens.accessToken, tokens.refreshToken, PublicView(user)));
    }

    /**
     * `refreshToken`: verify the token, find its subject, check it against
     * the stored digest, and rotate the digest to a new refresh token.
     */
    method RefreshToken(refreshToken: string, jwt: JwtService, tokenSalt: Salt)
      returns (r: Result<AuthResponse, AuthError>)
      requires Valid()
      modifies this
      ensures Valid() && nextId == old(nextId)
      ensures r.Err? ==> users == old(users) && r.error.Unauthorized?
      ensures jwt.verify(refreshToken).Err? ==>
        r == Err(Unauthorized(CatchRefreshError(jwt.verify(refreshToken).error)))
      ensures jwt.verify(refreshToken).Ok? ==>
        var id := jwt.verify(refreshToken).value.sub;
        && (r.Ok? <==> id in old(users) && old(users)[id].refreshToken.Some?
                        && VerifyRefreshToken(refreshToken, old(users)[id].refreshToken.value))
        && (r.Err? ==> r.error == Unauthorized(CatchRefreshError(INNER_REFRESH_FAILURE)))
      ensures r.Ok? ==>
        && jwt.verify(refreshToken).Ok?
        && var id := jwt.verify(refreshToken).value.sub;
        && id in old(users)
        && r.value.user == PublicView(old(users)[id])
        && TokenPair(r.value.accessToken, r.value.refreshToken) == GenerateTokens(old(users)[id], jwt)
        && users == WithRefreshToken(old(users), id, Some(HashRefreshToken(r.value.refreshToken, tokenSalt)))
    {
      var verified := jwt.verify(refreshToken);
      if verified.Err? {
        return Err(Unauthorized(CatchRefreshError(verified.error)));
      }
      var id := verified.value.sub;
      if id !in users || users[id].refreshToken.None? {
        return Err(Unauthorized(CatchRefreshError(INNER_REFRESH_FAILURE)));
      }
      var user := users[id];
      if !VerifyRefreshToken(refreshToken, user.refreshToken.value) {
        return Err(Unauthorized(CatchRefreshError(INNER_REFRESH_FAILURE)));
      }
      var tokens := GenerateTokens(user, jwt);
      var hashedRefreshToken := HashRefreshToken(tokens.refreshToken, tokenSalt);
      users := WithRefreshToken(users, user.id, Some(hashedRefreshToken));
      return Ok(AuthResponse(tokens.accessToken, tokens.refreshToken, PublicView(user)));
    }

    /**
     * `forgotPassword`: the same reply whether or not the email is known;
     * for a known email, a fresh reset token valid for one hour.
     */
    method ForgotPassword(email: string, randomBytes: seq<byte>, now: nat) returns (r: Reply)
      requires Valid()
      requires |randomBytes| == RESET_TOKEN_BYTES
      modifies this
      ensures Valid() && nextId == old(nextId)
      ensures r == Reply(RESET_LINK_SENT)
      ensures (forall id :: id in old(users) ==> old(users)[id].email != email) ==> users == old(users)
      ensures forall id :: id in old(users) && old(users)[id].email == email ==>
        ResetWasIssued(old(users), users, id, ResetTokenFrom(randomBytes), now + RESET_TOKEN_TTL_MS)
    {
      var found := FindOne(users, (u: UserRecord) => u.email == email);
      if found.None? {
        return Reply(RESET_LINK_SENT);
      }
      var user := users[found.value];
      assert user.id == found.value;
      var resetToken := ResetTokenFrom(randomBytes);
      var resetTokenExpiry := now + RESET_TOKEN_TTL_MS;
      users := users[user.id := user.(resetPasswordToken := Some(resetToken),
                                      resetPasswordExpires := Some(resetTokenExpiry))];
      // emailService.sendPasswordResetEmail: outbound mail, no effect on the table
      return Reply(RESET_LINK_SENT);
    }

    /**
     * `resetPassword`: an unknown token and an expired one are refused; a
     * valid one sets the new password and is consumed.
     */
    method ResetPassword(token: string, newPassword: string, now: nat, passwordSalt: Salt)
      returns (r: Result<Reply, AuthError>)
      requires Valid()
      modifies this
      ensures Valid() && nextId == old(nextId)
      ensures r.Err? ==> users == old(users)
      ensures r == Err(BadRequest(INVALID_RESET_TOKEN)) <==> forall id :: !HoldsResetToken(old(users), id, token)
      ensures r.Err? ==> r.error == BadRequest(INVALID_RESET_TOKEN) || r.error == BadRequest(RESET_TOKEN_EXPIRED)
      ensures r == Err(BadRequest(RESET_TOKEN_EXPIRED)) ==>
        exists id :: HoldsResetToken(old(users), id, token) && IsResetExpired(old(users)[id].resetPasswordExpires, now)
      ensures r.Ok? ==>
        && r.value == Reply(PASSWORD_RESET)
        && exists id :: && HoldsResetToken(old(users), id, token)
                        && !IsResetExpired(old(users)[id].resetPasswordExpires, now)
                        && PasswordWasReset(old(users), users, id, newPassword, passwordSalt)
    {
      var found := FindOne(users, (u: UserRecord) => u.resetPasswordToken == Some(token));
      if found.None? {
        return Err(BadRequest(INVALID_RESET_TOKEN));
      }
      var user := users[found.value];
      assert user.id == found.value;
      assert HoldsResetToken(old(users), user.id, token);
      if IsResetExpired(user.resetPasswordExpires, now) {
        return Err(BadRequest(RESET_TOKEN_EXPIRED));
      }
      var hashedPassword := BcryptHash(newPassword, passwordSalt);
      users := users[user.id := user.(password := hashedPassword,
                                      resetPasswordToken := None,
                                      resetPasswordExpires := None)];
      assert PasswordWasReset(old(users), users, user.id, newPassword, passwordSalt);
      // emailService.sendPasswordChangedEmail: outbound mail, no effect on the table
      return Ok(Reply(PASSWORD_RESET));
    }

    /** `logout`: clears the user's stored refresh-token digest. */
    method Logout(userId: int) returns (r: Reply)
      requires Valid()
      modifies this
      ensures Valid() && nextId == old(nextId)
      ensures users == WithRefreshToken(old(users), userId, None)
      ensures r == Reply(LOGGED_OUT)
    {
      users := WithRefreshToken(users, userId, None);
      return Reply(LOGGED_OUT);
    }

    /** `revokeAllTokens`: the same update as `logout`, another reply. */
    method RevokeAllTokens(userId: int) returns (r: Reply)
      requires Valid()
      modifies this
      ensures Valid() && nextId == old(nextId)
      ensures users == WithRefreshToken(old(users), userId, None)
      ensures r == Reply(TOKENS_REVOKED)
    {
      users := WithRefreshToken(users, userId, None);
      return Reply(TOKENS_REVOKED);
    }
  }
}
