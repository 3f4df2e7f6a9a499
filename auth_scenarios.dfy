/**
 * Sequences of calls to the authentication service, proved from the
 * operations' contracts alone: the refresh token is single-use, a session
 * issued at registration can be refreshed, logout ends the session, a
 * username or email can be registered once, and a reset token works once,
 * within its hour, after which only the new password logs in.
 */
module AuthScenarios {
  import opened Wrappers
  import opened Crypto
  import opened Jwt
  import opened Hex
  import opened Users
  import opened Auth

  /**
   * Presenting the same refresh token twice: once the first call has rotated
   * the stored digest to a different token, the second call is refused.
   */
  method RefreshTokenIsSingleUse(svc: AuthService, token: string, jwt: JwtService, firstSalt: Salt, secondSalt: Salt)
    returns (first: Result<AuthResponse, AuthError>, second: Result<AuthResponse, AuthError>)
    requires svc.Valid()
    modifies svc
    ensures svc.Valid()
    ensures first.Ok? && first.value.refreshToken != token ==>
      second == Err(Unauthorized(CatchRefreshError(INNER_REFRESH_FAILURE)))
  {
    first := svc.RefreshToken(token, jwt, firstSalt);
    second := svc.RefreshToken(token, jwt, secondSalt);
  }

  /**
   * The refresh token `register` returns can be exchanged right away for a
   * new session of the same user, provided the JWT service accepts a
   * refresh token it has just signed.
   */
  method RegisteredSessionCanRefresh(svc: AuthService, username: string, email: string, password: string,
                                     jwt: JwtService, passwordSalt: Salt, firstSalt: Salt, secondSalt: Salt)
    returns (registered: Result<AuthResponse, AuthError>, refreshed: Result<AuthResponse, AuthError>)
    requires svc.Valid()
    requires AcceptsFreshRefreshToken(jwt, JwtPayload(email, svc.nextId, username))
    modifies svc
    ensures svc.Valid()
    ensures registered.Ok? ==> refreshed.Ok? && refreshed.value.user == registered.value.user
  {
    registered := svc.Register(username, email, password, jwt, passwordSalt, firstSalt);
    if registered.Ok? {
      refreshed := svc.RefreshToken(registered.value.refreshToken, jwt, secondSalt);
    } else {
      refreshed := registered;
    }
  }

  /** After `logout` (or `revokeAllTokens`), no refresh token of that user is accepted. */
  method LogoutEndsSession(svc: AuthService, token: string, jwt: JwtService, tokenSalt: Salt, revokeAll: bool)
    returns (refreshed: Result<AuthResponse, AuthError>)
    requires svc.Valid()
    requires jwt.verify(token).Ok?
    modifies svc
    ensures svc.Valid()
    ensures refreshed == Err(Unauthorized(CatchRefreshError(INNER_REFRESH_FAILURE)))
  {
    var userId := jwt.verify(token).value.sub;
    var reply;
    if revokeAll {
      reply := svc.RevokeAllTokens(userId);
    } else {
      reply := svc.Logout(userId);
    }
    refreshed := svc.RefreshToken(token, jwt, tokenSalt);
  }

  /** A second registration with the same username is refused. */
  method RegisterTwice(svc: AuthService, username: string, email: string, otherEmail: string,
                       password: string, jwt: JwtService,
                       firstPasswordSalt: Salt, firstTokenSalt: Salt, secondPasswordSalt: Salt, secondTokenSalt: Salt)
    returns (first: Result<AuthResponse, AuthError>, second: Result<AuthResponse, AuthError>)
    requires svc.Valid()
    modifies svc
    ensures svc.Valid()
    ensures first.Ok? ==> second == Err(BadRequest(USER_ALREADY_EXISTS))
  {
    first := svc.Register(username, email, password, jwt, firstPasswordSalt, firstTokenSalt);
    if first.Ok? {
      assert CollidesWith(svc.users[first.value.user.id], username, otherEmail);
    }
    second := svc.Register(username, otherEmail, password, jwt, secondPasswordSalt, secondTokenSalt);
  }

  /**
   * `forgotPassword` for a known email, then `resetPassword` with the issued
   * token within the hour: the reset succeeds and that user now has the new
   * password and no pending reset. The random token is assumed not to be
   * held by another user already.
   */
  method ResetWithIssuedToken(svc: AuthService, ghost u: int, email: string, newPassword: string,
                              randomBytes: seq<byte>, issuedAt: nat, usedAt: nat, passwordSalt: Salt)
    returns (reset: Result<Reply, AuthError>)
    requires svc.Valid()
    requires u in svc.users && svc.users[u].email == email
    requires |randomBytes| == RESET_TOKEN_BYTES
    requires forall id :: id in svc.users && id != u ==>
      svc.users[id].resetPasswordToken != Some(ResetTokenFrom(randomBytes))
    requires usedAt <= issuedAt + RESET_TOKEN_TTL_MS
    modifies svc
    ensures svc.Valid()
    ensures reset == Ok(Reply(PASSWORD_RESET))
    ensures u in svc.users && svc.users[u].email == email
    ensures svc.users[u].password == BcryptHash(newPassword, passwordSalt)
    ensures svc.users[u].resetPasswordToken.None? && svc.users[u].resetPasswordExpires.None?
    ensures forall id :: !HoldsResetToken(svc.users, id, ResetTokenFrom(randomBytes))
  {
    var token := ResetTokenFrom(randomBytes);
    var sent := svc.ForgotPassword(email, randomBytes, issuedAt);
    assert HoldsResetToken(svc.users, u, token);
    assert forall id :: HoldsResetToken(svc.users, id, token) ==> id == u;
    assert !IsResetExpired(svc.users[u].resetPasswordExpires, usedAt);
    ghost var beforeReset := svc.users;
    reset := svc.ResetPassword(token, newPassword, usedAt, passwordSalt);
    assert reset.Ok?;
    ghost var holder :| HoldsResetToken(beforeReset, holder, token)
                        && PasswordWasReset(beforeReset, svc.users, holder, newPassword, passwordSalt);
    assert holder == u;
    forall id ensures !HoldsResetToken(svc.users, id, token) {
      if id != u && id in beforeReset {
        assert svc.users[id] == beforeReset[id];
      }
    }
  }

  /** The same reset token presented twice: the second call is refused. */
  method ResetTokenIsSingleUse(svc: AuthService, token: string, newPassword: string, now: nat,
                               firstSalt: Salt, secondSalt: Salt)
    returns (first: Result<Reply, AuthError>, second: Result<Reply, AuthError>)
    requires svc.Valid()
    requires forall a, b :: HoldsResetToken(svc.users, a, token) && HoldsResetToken(svc.users, b, token) ==> a == b
    modifies svc
    ensures svc.Valid()
    ensures first.Ok? ==> second == Err(BadRequest(INVALID_RESET_TOKEN))
  {
    ghost var before := svc.users;
    first := svc.ResetPassword(token, newPassword, now, firstSalt);
    if first.Ok? {
      ghost var holder :| HoldsResetToken(before, holder, token)
                          && PasswordWasReset(before, svc.users, holder, newPassword, firstSalt);
      forall id ensures !HoldsResetToken(svc.users, id, token) {
        if id == holder {
          assert svc.users[id].resetPasswordToken.None?;
        } else if id in before {
          assert svc.users[id] == before[id];
          assert !HoldsResetToken(before, id, token);
        }
      }
    }
    second := svc.ResetPassword(token, newPassword, now, secondSalt);
  }

  /** After a password reset, the new password logs in and the old one does not. */
  method LoginAfterReset(svc: AuthService, ghost u: int, email: string, oldPassword: string, newPassword: string,
                         passwordSalt: Salt, jwt: JwtService, tokenSalt: Salt)
    returns (loginOld: Result<AuthResponse, AuthError>, loginNew: Result<AuthResponse, AuthError>)
    requires svc.Valid()
    requires u in svc.users && svc.users[u].email == email
    requires svc.users[u].password == BcryptHash(newPassword, passwordSalt)
    modifies svc
    ensures svc.Valid()
    ensures oldPassword != newPassword ==> loginOld == Err(Unauthorized(INVALID_CREDENTIALS))
    ensures loginNew.Ok? && loginNew.value.user.id == u
  {
    assert forall id :: id in svc.users && svc.users[id].email == email ==> id == u;
    loginOld := svc.Login(email, oldPassword, jwt, tokenSalt);
    assert CredentialsMatch(svc.users, u, email, newPassword);
    loginNew := svc.Login(email, newPassword, jwt, tokenSalt);
  }

  /**
   * The whole reset flow in order: the link is requested and used within the
   * hour, the same link is refused afterwards, and from then on only the new
   * password logs in.
   */
  method PasswordResetRoundTrip(svc: AuthService, ghost u: int, email: string, oldPassword: string,
                                newPassword: string, randomBytes: seq<byte>, issuedAt: nat, usedAt: nat,
                                passwordSalt: Salt, replaySalt: Salt, tokenSalt: Salt, jwt: JwtService)
    returns (reset: Result<Reply, AuthError>, replay: Result<Reply, AuthError>,
             loginOld: Result<AuthResponse, AuthError>, loginNew: Result<AuthResponse, AuthError>)
    requires svc.Valid()
    requires u in svc.users && svc.users[u].email == email
    requires |randomBytes| == RESET_TOKEN_BYTES
    requires forall id :: id in svc.users && id != u ==>
      svc.users[id].resetPasswordToken != Some(ResetTokenFrom(randomBytes))
    requires usedAt <= issuedAt + RESET_TOKEN_TTL_MS
    modifies svc
    ensures svc.Valid()
    ensures reset == Ok(Reply(PASSWORD_RESET))
    ensures replay == Err(BadRequest(INVALID_RESET_TOKEN))
    ensures oldPassword != newPassword ==> loginOld == Err(Unauthorized(INVALID_CREDENTIALS))
    ensures loginNew.Ok? && loginNew.value.user.id == u
  {
    reset := ResetWithIssuedToken(svc, u, email, newPassword, randomBytes, issuedAt, usedAt, passwordSalt);
    replay := svc.ResetPassword(ResetTokenFrom(randomBytes), newPassword, usedAt, replaySalt);
    loginOld, loginNew := LoginAfterReset(svc, u, email, oldPassword, newPassword, passwordSalt, jwt, tokenSalt);
  }

  /**
   * A fresh service: register alice, log in with a wrong password, then
   * with the right one.
   */
  method AliceSignsUp(jwt: JwtService, passwordSalt: Salt, registerTokenSalt: Salt,
                      wrongLoginSalt: Salt, rightLoginSalt: Salt)
    returns (registered: Result<AuthResponse, AuthError>, wrong: Result<AuthResponse, AuthError>,
             right: Result<AuthResponse, AuthError>)
    ensures registered.Ok? && registered.value.user == PublicUser(1, "alice", "a@x.com")
    ensures wrong == Err(Unauthorized(INVALID_CREDENTIALS))
    ensures right.Ok? && right.value.user == PublicUser(1, "alice", "a@x.com")
  {
    var svc := new AuthService();
    registered := svc.Register("alice", "a@x.com", "pw1234567", jwt, passwordSalt, registerTokenSalt);
    wrong := svc.Login("a@x.com", "wrong", jwt, wrongLoginSalt);
    assert CredentialsMatch(svc.users, 1, "a@x.com", "pw1234567");
    right := svc.Login("a@x.com", "pw1234567", jwt, rightLoginSalt);
  }
}
