/** The JSON Web Tokens issued by the auth controller (backend/src/controllers/authController.js),
    as jsonwebtoken's `sign` and `verify` treat them. The HMAC itself is not modelled: a token
    records the key it was signed with, and verification compares that key with its own. */
module Tokens {
  import opened Common

  /** `expiresIn: "7d"` of generateToken, in seconds. */
  const SessionLifetime: nat := 7 * 24 * 60 * 60

  /** `expiresIn: "1h"` of the forgot-password token, in seconds. */
  const ResetLifetime: nat := 60 * 60

  /** The key resetPassword verifies with when JWT_SECRET is unset. */
  const FallbackKey: string := "jwt_secret_key"

  /** A decoded, signed token. The payload is only `{ id }`; jsonwebtoken adds `iat` (the issue
      time, whole seconds) and `exp` (iat plus the lifetime). There is no claim saying what the
      token is for, so a session token and a reset token differ only in `exp`. */
  datatype Token = Token(id: UserId, iat: nat, exp: nat, key: string)

  datatype TokenError = InvalidSignature | Expired

  /** jwt.sign({ id }, secret, { expiresIn }) at clock `now` (seconds). jsonwebtoken throws when
      the secret is empty or undefined; that is the `None` case. */
  function Sign(secret: string, id: UserId, now: nat, lifetime: nat): (r: Option<Token>)
    ensures r.None? <==> secret == ""
    ensures r.Some? ==> r.value.id == id && r.value.key == secret
    ensures r.Some? ==> r.value.iat == now && r.value.exp - r.value.iat == lifetime
  {
    if secret == "" then None else Some(Token(id, now, now + lifetime, secret))
  }

  /** generateToken(id): a session token. */
  function SessionToken(secret: string, id: UserId, now: nat): Option<Token>
  {
    Sign(secret, id, now, SessionLifetime)
  }

  /** The token forgotPassword puts in the reset link. */
  function ResetToken(secret: string, id: UserId, now: nat): Option<Token>
  {
    Sign(secret, id, now, ResetLifetime)
  }

  /** jwt.verify(token, key) at clock `now`: the signature is checked first, then expiry, which
      holds from the second `exp` on. */
  function Verify(t: Token, key: string, now: nat): (r: Result<UserId, TokenError>)
    ensures r.Success? <==> t.key == key && now < t.exp
    ensures r.Success? ==> r.value == t.id
    ensures t.key != key ==> r == Failure(InvalidSignature)
  {
    if t.key != key then Failure(InvalidSignature)
    else if t.exp <= now then Failure(Expired)
    else Success(t.id)
  }

  /** A session token verifies, under the key it was signed with, exactly during the seven days
      after it was issued, and reports expiry afterwards. */
  lemma SessionTokenWindow(secret: string, id: UserId, issued: nat, now: nat)
    requires secret != ""
    ensures SessionToken(secret, id, issued).Some?
    ensures Verify(SessionToken(secret, id, issued).value, secret, now)
         == if now < issued + 604800 then Success(id) else Failure(Expired)
  {
  }

  /** A reset token verifies exactly during the hour after it was issued. */
  lemma ResetTokenWindow(secret: string, id: UserId, issued: nat, now: nat)
    requires secret != ""
    ensures ResetToken(secret, id, issued).Some?
    ensures Verify(ResetToken(secret, id, issued).value, secret, now)
         == if now < issued + 3600 then Success(id) else Failure(Expired)
  {
  }

  /** The two kinds of token carry the same claims except `exp`: nothing in a token says whether
      it was issued for a session or for a reset. */
  lemma NoPurposeClaim(secret: string, id: UserId, now: nat)
    requires secret != ""
    ensures SessionToken(secret, id, now).value.(exp := 0) == ResetToken(secret, id, now).value.(exp := 0)
    ensures SessionToken(secret, id, now).value.exp == ResetToken(secret, id, now).value.exp + 601200
  {
  }

  /** The text of a token inside a URL. JWT's compact form is three base64url segments joined by
      dots; here the segments are the decimal claims, which share the one property a reset link
      depends on: no '/'. The signature segment is not rendered. */
  function TokenText(t: Token): (r: string)
    ensures NoSlash(r)
  {
    NumeralHasNoSlash(t.id, 10);
    NumeralHasNoSlash(t.iat, 10);
    NumeralHasNoSlash(t.exp, 10);
    Numeral(t.id, 10) + "." + Numeral(t.iat, 10) + "." + Numeral(t.exp, 10)
  }
}
