# Blog backend authentication core, modelled in Dafny

This project models the credential and session core of the blog backend.
It covers two parts.

The first is the authentication service (`AuthService`). It runs over the
`users` table and has seven operations: register, login, refresh-token
rotation, forgot-password, reset-password, logout and revoke-all-tokens.

The second is the throttling guard (`AdvancedThrottleAuthGuard`). It sits in
front of login, forgot-password and reset-password. It picks the identity a
request is counted under, refuses a fixed list of IP addresses with a 429,
and hands every other request to the base throttler.

Modules, one per component:

- `Wrappers`: `Option` and `Result`.
- `Crypto`: bcrypt as an oracle. A digest verifies against the secret it was made from and against no other. Beside it, `TruncatingHash` and `TruncatingCompare` state what bcryptjs does with a secret longer than 72 bytes (see Findings).
- `Jwt`: the JWT service as an oracle record of `sign` and `verify` functions. `verify` returns the payload, or the error it throws, with the error's `name`.
- `Hex`: `randomBytes(32).toString('hex')`. The bytes come from the caller. Their lower-case hex rendering is modelled, and `FromHex` is its inverse.
- `Users`: the user record, the table as `map<int, UserRecord>`, the `findOne` query as a loop over the table, and the refresh-token column update.
- `Auth`: the class `AuthService`. It holds the table and the next auto-generated id. Each operation is a method that reads and then updates the table. `Valid()` is the table invariant: rows keyed by their own id, unique usernames, unique emails, and a pending reset token always has an expiry.
- `AuthScenarios`: call sequences proved from the method contracts alone. They cover refresh single use, refreshing the session issued at registration, logout ending the session, duplicate registration, the reset flow, and the sign-up scenario.
- `ThrottleGuard`: the guard's tracker key, deny list and decision as pure functions, plus the per-route limits from the controller's decorators.

Randomness, the clock and the JWT service are parameters:

- bcrypt salts (`Salt`);
- the 32 random bytes of a reset token;
- `Date.now()` in milliseconds (`now`);
- the JWT service, a `JwtService` value.

The two outbound mails (a reset link and a password-changed notice) do not
touch the table. The model assumes both are delivered; "## Left out" says
what a failed send would change.

Three behaviours of the code that are easy to misread:

- **Refresh errors.** A missing user, a missing stored digest and a digest mismatch are thrown inside the `try`. The `catch` rewraps them, so the caller sees `Invalid refresh token: Invalid refresh token`.
- **Reset-token uniqueness.** The code does not enforce that a reset token is unique. `findOne` returns some matching row, so the model does not make uniqueness an invariant. The scenarios that need it take it as a hypothesis.
- **Request counting.** The guard does not count requests. Counting lives in the base throttler, which is not part of this model: its decision is a parameter.

## Model

| member | source | states |
|---|---|---|
| `Crypto.BcryptHash` | blog-backend/src/auth/auth.service.ts:59 | a bcrypt digest verifies against the secret it was made from, and against no other secret; `Crypto.BcryptCompare` (`bcrypt.compare`, auth.service.ts:45, 96) is the check it is stated with |
| `Crypto.Truncated` | blog-backend/src/auth/auth.service.ts:40-46 | bcryptjs keeps exactly the first 72 bytes of a longer secret (a prefix of length 72) and keeps a secret of at most 72 bytes whole |
| `Crypto.TruncatingHash` | blog-backend/src/auth/auth.service.ts:40-42 | the digest bcryptjs computes is the oracle's digest of the truncated secret, so it covers at most 72 bytes, and for a secret of at most 72 bytes it is the oracle's digest of the secret itself |
| `Crypto.TruncatingCompare` | blog-backend/src/auth/auth.service.ts:44-46 | bcryptjs's compare accepts a candidate exactly when the oracle accepts its first 72 bytes; for a candidate of at most 72 bytes it agrees with the oracle's compare |
| `Crypto.SharedPrefixCollides` | blog-backend/src/auth/auth.service.ts:40-46 | under truncation, a digest accepts any candidate that agrees with its secret on the first 72 bytes |
| `Auth.TruncatedDigestAcceptsReplacedToken` | blog-backend/src/auth/auth.service.ts:132-139 | two different JWTs of user 1 (`a@x.com`) share a 72-character prefix; bcryptjs's compare accepts one against the other's digest, while the oracle rejects it |
| `Auth.GenerateTokens` | blog-backend/src/auth/auth.service.ts:26-38 | both tokens are signed over the same claims, which carry the user's email, id as `sub` and username; the access token with expiry '15m', the refresh token with expiry '7d' |
| `Auth.HashRefreshToken` | blog-backend/src/auth/auth.service.ts:40-42 | the stored digest of a refresh token accepts that token and no other |
| `Auth.VerifyRefreshToken` | blog-backend/src/auth/auth.service.ts:44-46 | a token verifies against a stored digest exactly when the digest is that token's under the digest's own salt |
| `Auth.RotatedDigestRejectsPreviousToken` | blog-backend/src/auth/auth.service.ts:40-46 | a refresh-token digest verifies the token it was made from; the previous token verifies against it exactly when the two tokens are the same string |
| `Users.FindOne` | blog-backend/src/auth/auth.service.ts:88-90 | the query returns a row that satisfies the condition, or none exactly when no row does |
| `Users.WithRefreshToken` | blog-backend/src/auth/auth.service.ts:104-105 | updating the refresh-token column changes that row's refresh token and nothing else, and keeps the same set of rows; a missing id changes nothing |
| `Auth.AuthService.Register` | blog-backend/src/auth/auth.service.ts:48-83 | fails with BadRequest 'User already exists', leaving the table and id counter unchanged, exactly when some row has the username or the email; otherwise adds exactly one row under the next id, whose password verifies against the input password and whose refresh digest verifies against the returned refresh token; the tokens are those generated for that row, the returned user is its id, username and email, and the invariant is kept |
| `Auth.AuthService.Login` | blog-backend/src/auth/auth.service.ts:85-116 | succeeds exactly when a row has the email and its password verifies; an unknown email and a wrong password both fail with Unauthorized 'Invalid credentials' and leave the table unchanged; on success only that user's refresh digest changes, to a digest of the returned refresh token |
| `Auth.AuthService.RefreshToken` | blog-backend/src/auth/auth.service.ts:118-167 | a token the JWT service rejects fails with the message the catch derives from the error; otherwise success happens exactly when the subject's row exists, has a stored digest, and that digest verifies the token, else it fails with the rewrapped 'Invalid refresh token' message; every failure leaves the table unchanged; success changes only the subject's refresh digest, to a digest of the new refresh token |
| `Auth.CatchRefreshError` | blog-backend/src/auth/auth.service.ts:158-166 | an error named TokenExpiredError gives 'Refresh token expired', one named JsonWebTokenError gives 'Invalid refresh token format', any other gives 'Invalid refresh token: ' followed by its message |
| `Auth.NotBeforeErrorIsRewrapped` | blog-backend/src/auth/auth.service.ts:158-166 | a NotBeforeError, which the catch does not single out, reaches the caller as 'Invalid refresh token: ' followed by the library's message |
| `Auth.InnerRefreshFailureIsRewrapped` | blog-backend/src/auth/auth.service.ts:128-139 | the UnauthorizedException thrown inside the try for a missing user, a missing digest or a mismatch reaches the caller as 'Invalid refresh token: Invalid refresh token' |
| `Auth.AuthService.ForgotPassword` | blog-backend/src/auth/auth.service.ts:169-191 | the reply is the same fixed message whether or not the email exists; an unknown email leaves the table unchanged; for the user with the email, only the reset token and reset expiry change, to the 64-hex-digit token and now + 3600000 ms |
| `Hex.ResetTokenFrom` | blog-backend/src/auth/auth.service.ts:180 | the reset token drawn from 32 random bytes has 64 characters, all lower-case hex digits, and decodes back to those bytes |
| `Hex.ToHex` | blog-backend/src/auth/auth.service.ts:180 | hex rendering yields two hex digits per byte |
| `Hex.FromHexToHex` | blog-backend/src/auth/auth.service.ts:180 | decoding the hex rendering gives back the bytes |
| `Auth.IsResetExpired` | blog-backend/src/auth/auth.service.ts:204 | a reset token has expired only when its expiry is strictly before now; an expiry equal to now is accepted; a missing expiry compares as 0 |
| `Auth.AuthService.ResetPassword` | blog-backend/src/auth/auth.service.ts:193-219 | fails with BadRequest 'Invalid or expired reset token' exactly when no row holds the token; fails with 'Reset token has expired' only for a holder whose expiry is strictly before now; failures leave the table unchanged; success replies 'Password has been reset successfully', sets that holder's password to a digest of the new password, and clears both reset fields, changing nothing else |
| `Auth.AuthService.Logout` | blog-backend/src/auth/auth.service.ts:221-224 | clears only that user's refresh digest and replies 'Logged out successfully' |
| `Auth.AuthService.RevokeAllTokens` | blog-backend/src/auth/auth.service.ts:226-229 | makes the same update as logout and replies 'All tokens revoked successfully' |
| `AuthScenarios.RefreshTokenIsSingleUse` | blog-backend/src/auth/auth.service.ts:132-147 | once a refresh has rotated the stored digest to a different token, presenting the old token again fails with the rewrapped 'Invalid refresh token' message |
| `AuthScenarios.RegisteredSessionCanRefresh` | blog-backend/src/auth/auth.service.ts:26-38 | the refresh token returned by register carries the new user's claims, so, given a JWT service that accepts a token it has just signed, refreshing with it succeeds for the same user |
| `AuthScenarios.LogoutEndsSession` | blog-backend/src/auth/auth.service.ts:221-229 | after logout or revoke-all for a token's subject, refreshing with that token fails |
| `AuthScenarios.RegisterTwice` | blog-backend/src/auth/auth.service.ts:51-57 | after a successful registration, registering the same username again fails with 'User already exists' |
| `AuthScenarios.ResetWithIssuedToken` | blog-backend/src/auth/auth.service.ts:176-214 | the token that forgot-password issues and stores, used within the hour, resets the password: the user then has the new password digest and no pending reset, and no row holds that token any more |
| `AuthScenarios.PasswordResetRoundTrip` | blog-backend/src/auth/auth.service.ts:169-219 | the whole flow in order: the issued link resets the password within the hour, the same link is then refused with 'Invalid or expired reset token', the new password logs in as that user and a different old password fails |
| `AuthScenarios.ResetTokenIsSingleUse` | blog-backend/src/auth/auth.service.ts:210-214 | when one user at most holds a reset token, a second reset with it after a successful one fails with 'Invalid or expired reset token' |
| `AuthScenarios.LoginAfterReset` | blog-backend/src/auth/auth.service.ts:96-100 | after a reset, login with the new password succeeds for that user, and login with a different old password fails with 'Invalid credentials' |
| `AuthScenarios.AliceSignsUp` | blog-backend/src/auth/auth.service.ts:48-116 | on an empty table, registering alice yields user id 1; a wrong password fails with 'Invalid credentials'; the right one logs in as user 1 |
| `ThrottleGuard.GetTracker` | blog-backend/src/auth/guards/throttle-auth.guard.ts:12-14 | the tracker is the IP when that is a non-empty string; otherwise the user id's text when a user id is present and its text is non-empty (a numeric id always is); otherwise 'unknown'; it is never empty |
| `ThrottleGuard.NatToDecimal` | blog-backend/src/auth/guards/throttle-auth.guard.ts:13 | a non-negative number's rendering is a non-empty string of decimal digits with no leading zero: it starts with '0' only when it is exactly "0", the rendering of 0 |
| `ThrottleGuard.NatToDecimalValue` | blog-backend/src/auth/guards/throttle-auth.guard.ts:13 | the digits of the rendering, read most significant first, spell the number rendered |
| `ThrottleGuard.IntToDecimal` | blog-backend/src/auth/guards/throttle-auth.guard.ts:13 | a non-negative id renders as the digits that spell it, with no leading zero, and 0 as exactly "0"; a negative id renders as '-' followed by the digits that spell its magnitude, again with no leading zero |
| `ThrottleGuard.IntToDecimalInjective` | blog-backend/src/auth/guards/throttle-auth.guard.ts:13 | two numeric ids with the same text are the same id |
| `ThrottleGuard.UserIdText` | blog-backend/src/auth/guards/throttle-auth.guard.ts:13 | `req.user?.id?.toString()` is undefined exactly when the user or its id is missing; a text id is itself; a numeric id gives its canonical decimal text as rendered by `IntToDecimal` |
| `ThrottleGuard.IsBlacklisted` | blog-backend/src/auth/guards/throttle-auth.guard.ts:35-38 | exactly '192.168.1.100' and '10.0.0.50' are listed; a missing IP is not |
| `ThrottleGuard.HandleRequest` | blog-backend/src/auth/guards/throttle-auth.guard.ts:16-33 | a listed IP is refused with status 429 and body {message 'Too many requests from this IP', retryAfter = ttl, limit = limit}; any other request gets exactly the base throttler's decision and no response of the guard's own |
| `ThrottleGuard.BlacklistIgnoresBaseThrottler` | blog-backend/src/auth/guards/throttle-auth.guard.ts:23-30 | for a listed IP the outcome does not depend on the base throttler's decision, and the request is refused |
| `ThrottleGuard.BlacklistUsesRawIp` | blog-backend/src/auth/guards/throttle-auth.guard.ts:21-23 | a request whose IP is empty or absent is never refused by the list |
| `ThrottleGuard.ListedTrackerWithoutIpIsDelegated` | blog-backend/src/auth/guards/throttle-auth.guard.ts:12-23 | a request without an IP whose user id is '10.0.0.50' is tracked under a listed address, yet still reaches the base throttler |
| `ThrottleGuard.ThrottleFor` | blog-backend/src/auth/auth.controller.ts:19-58 | exactly login, forgot-password and reset-password carry a throttle: login and reset-password allow 5 per 60, forgot-password 3 per 60 |
| `ThrottleGuard.GuardRoute` | blog-backend/src/auth/auth.controller.ts:14-61 | register, refresh, logout and revoke-all run no throttling guard; on login (5 per 60), forgot-password (3 per 60) and reset-password (5 per 60), a listed IP is refused with status 429 and body {message 'Too many requests from this IP', retryAfter = that route's ttl, limit = that route's limit}; any other request gets exactly the base throttler's decision and no response of the guard's own |

## Findings

| source | as written | input that shows it | evidently intended | confidence | as-written member | corrected member |
|---|---|---|---|---|---|---|
| blog-backend/src/auth/auth.service.ts:40-46, 132-139 | refresh tokens are hashed and compared with bcryptjs, which reads only the first 72 bytes of its input | two JWTs signed for `a@x.com`, user 1, both start with the 72 characters `eyJhbGciOiJIUzI1NiIsInR5cCI6IkpXVCJ9.eyJlbWFpbCI6ImFAeC5jb20iLCJzdWIiOjE`; the stored digest of the newer one accepts the older one, or the user's access token | a stored refresh digest accepts only the refresh token it was made from, so rotation retires the previous token | not executed | `Auth.TruncatedDigestAcceptsReplacedToken` | `Auth.RotatedDigestRejectsPreviousToken` |

## Left out

- bcrypt internals (salting, the cost factor 10), JWT signing and expiry arithmetic, and the entropy of `randomBytes`: these are library code. bcrypt is a collision-free oracle, apart from the truncation stated in `Crypto`. JWT `sign`/`verify` and the random bytes come in as parameters.
- `undefined` in TypeORM updates (auth.service.ts:212-213, 222, 227) is modelled as setting the column to null. Whether TypeORM clears a column when handed `undefined` is library behaviour outside this model. The model follows the evident intent and the success messages.
- Email delivery (`email.service.ts`): the model assumes both sends succeed. Both are awaited (auth.service.ts:188, 216), and the email service catches nothing (email.service.ts:15, 29), so a failed send rejects the call. In forgot-password that happens after the reset token is stored (auth.service.ts:183-188): the caller gets an error, not the fixed reply, and the token stays valid. In reset-password it happens after the password has changed (auth.service.ts:210-216): the caller gets an error, yet the reset took effect. So `Auth.AuthService.ForgotPassword`'s same reply for every email and `Auth.AuthService.ResetPassword`'s success reply after a reset, and `Auth.AuthService.ResetPassword`'s rule that a failure leaves the table unchanged, hold only when mail is delivered.
- Crypto.BcryptHash: the service's operations use this collision-free oracle, not bcryptjs's 72-byte truncation. With truncation, every guarantee that a refresh digest rejects another token (`Auth.RotatedDigestRejectsPreviousToken`, `AuthScenarios.RefreshTokenIsSingleUse`, `Auth.AuthService.RefreshToken`'s mismatch case) fails for tokens that share their first 72 bytes, as the finding above shows. Passwords longer than 72 bytes are affected in the same way. For passwords `Crypto.Truncated` counts characters, not UTF-8 bytes, so for a non-ASCII password it keeps more than bcryptjs does; refresh tokens are ASCII, where the two agree.
- `createdAt`/`updatedAt` and the posts/comments relations of the user entity: they are audit and content fields that no core operation reads.
- Database failures (connection errors, a unique-constraint error raised by `save`): the model's table operations always succeed.
- The base throttler's request counting (`super.handleRequest`): it is not part of this model, and it is process-wide mutable state. Its boolean decision is a parameter. The `ttl: 60` of the decorators is passed through as given. The `@Throttle({ default: { limit, ttl } })` object form and the `ThrottlerRequest` argument belong to the `@nestjs/throttler` releases that read `ttl` in milliseconds, so there `ttl: 60` is a 60 ms window and `retryAfter: 60` is 60 ms; this rests on the library's release history, which is not part of this model.
- The concurrent double-refresh race: it needs async interleaving between the read and the update, and the model is sequential.
- The JWT authentication guard on logout and revoke-all: the user id is an input of those operations.
- DTO validation: the model assumes well-formed input fields.
- ThrottleGuard.UserIdText: a numeric `user.id` is modelled as an integer. JavaScript renders numbers of 1e21 or more in exponent form ("1e+21") and fractions with a point; user ids are integer primary keys well below that, so those renderings are not modelled.
- `Number(payload.sub)` is the identity on the integer subject claim. Non-integer subjects are not modelled.
- `Users.FindOne`: when several rows match, which one comes back is left open. The database's row order is not part of this model.
