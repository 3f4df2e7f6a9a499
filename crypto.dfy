/**
 * The bcrypt password hasher, as an oracle.
 *
 * A digest is kept as an opaque value built from the secret and the random
 * salt the library draws; only `BcryptCompare` looks inside it. This is the
 * one assumption the model makes about bcrypt: a digest verifies against the
 * secret it was made from and against no other secret. The library the
 * service links, bcryptjs, reads only the first 72 bytes of a secret;
 * `TruncatingHash` and `TruncatingCompare` state that behaviour, and the
 * service's operations are modelled over the collision-free oracle.
 */
module Crypto {

  /** The random salt bcrypt draws for each call to `hash`. */
  type Salt = nat

  datatype Digest = Digest(secret: string, salt: Salt)

  /** `bcrypt.compare(candidate, digest)`. */
  function BcryptCompare(candidate: string, digest: Digest): bool
  {
    candidate == digest.secret
  }

  /** `bcrypt.hash(secret, 10)` with the salt bcrypt would draw. */
  function BcryptHash(secret: string, salt: Salt): (digest: Digest)
    ensures BcryptCompare(secret, digest)
    ensures forall other :: BcryptCompare(other, digest) ==> other == secret
  {
    Digest(secret, salt)
  }

  /**
   * The number of input bytes bcrypt reads; bcryptjs drops the rest of a
   * longer secret without an error. A JWT is ASCII (base64url and '.'), so
   * for a refresh token a character is one byte. A password may not be
   * ASCII: bcryptjs counts its UTF-8 bytes, while `Truncated` counts
   * characters.
   */
  const BCRYPT_MAX_INPUT := 72

  function Truncated(secret: string): (kept: string)
    ensures |kept| == if |secret| <= BCRYPT_MAX_INPUT then |secret| else BCRYPT_MAX_INPUT
    ensures kept <= secret
    ensures |secret| <= BCRYPT_MAX_INPUT ==> kept == secret
  {
    if |secret| <= BCRYPT_MAX_INPUT then secret else secret[..BCRYPT_MAX_INPUT]
  }

  /** `bcrypt.hash` as bcryptjs computes it: the digest covers the first 72 bytes only. */
  function TruncatingHash(secret: string, salt: Salt): (digest: Digest)
    ensures digest == BcryptHash(Truncated(secret), salt)
    ensures |digest.secret| <= BCRYPT_MAX_INPUT
    ensures |secret| <= BCRYPT_MAX_INPUT ==> digest == BcryptHash(secret, salt)
  {
    Digest(Truncated(secret), salt)
  }

  /** `bcrypt.compare` as bcryptjs computes it: the candidate is truncated the same way. */
  function TruncatingCompare(candidate: string, digest: Digest): (ok: bool)
    ensures ok <==> BcryptCompare(Truncated(candidate), digest)
    ensures |candidate| <= BCRYPT_MAX_INPUT ==> (ok <==> BcryptCompare(candidate, digest))
  {
    Truncated(candidate) == digest.secret
  }

  /**
   * Under truncation a digest accepts every secret that agrees with its own
   * secret on the first 72 bytes, whatever follows them.
   */
  lemma SharedPrefixCollides(candidate: string, secret: string, salt: Salt)
    requires |candidate| >= BCRYPT_MAX_INPUT && |secret| >= BCRYPT_MAX_INPUT
    requires candidate[..BCRYPT_MAX_INPUT] == secret[..BCRYPT_MAX_INPUT]
    ensures TruncatingCompare(candidate, TruncatingHash(secret, salt))
  {
  }
}
