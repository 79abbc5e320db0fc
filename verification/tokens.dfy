/**
 * Token issuance on the server (server.ts:80-107) and the interface to the JSON Web Token
 * library. Signing and verification are library code: a signature is an oracle from a signing
 * request to the token string, verification an oracle from (token, secret) to its outcome.
 */
module Tokens {
  import opened Wrappers

  /** The environment variables the token code reads from `process.env`. */
  datatype Env = Env(
    jwtSecret: Option<string>,          // JWT_SECRET
    refreshSecret: Option<string>,      // JWT_REFRESH_SECRET
    accessExpiresIn: Option<string>,    // JWT_EXPIRES_IN
    refreshExpiresIn: Option<string>)   // JWT_REFRESH_EXPIRES_IN

  /** An environment variable is truthy: defined and not the empty string. */
  predicate IsSet(v: Option<string>) {
    v.Some? && v.value != ""
  }

  /** `process.env.X || fallback`. */
  function OrDefault(v: Option<string>, fallback: string): string {
    if IsSet(v) then v.value else fallback
  }

  const DefaultAccessExpiry: string := "15m"
  const DefaultRefreshExpiry: string := "7d"

  /** The claim set handed to the signer: an access token carries {id, email, name}, a refresh token only {id}. */
  datatype Claims = AccessClaims(id: int, email: string, name: string) | RefreshClaims(id: int)

  /** Everything `jwt.sign` receives: claims, secret and the `expiresIn` option. */
  datatype SignRequest = SignRequest(claims: Claims, secret: string, expiresIn: string)

  /** The error thrown when a signing secret is not configured. */
  datatype ConfigError = MissingSecret(message: string)

  /** The signing oracle (`jwt.sign`); the clock that stamps `iat` is folded into it. */
  type Signer = SignRequest -> string

  /** The claims `jwt.verify` hands back; fields the token did not carry are absent. */
  datatype Payload = Payload(id: int, email: Option<string>, name: Option<string>, iat: Option<int>, exp: Option<int>)

  /**
   * The outcome of `jwt.verify(token, secret)`: the decoded payload, or the error it throws
   * (TokenExpiredError, another JsonWebTokenError, or any other error).
   */
  datatype VerifyOutcome = Verified(payload: Payload) | Expired | Invalid | OtherError

  /** The verification oracle, from (token, secret) to its outcome. */
  type Verifier = (string, string) -> VerifyOutcome

  /** generateAccessToken: the signing request for an access token, or the error when JWT_SECRET is unset. */
  function GenerateAccessToken(env: Env, id: int, email: string, name: string): (r: Result<SignRequest, ConfigError>)
    ensures r.Ok? <==> IsSet(env.jwtSecret)
    ensures r.Err? ==> r.error == MissingSecret("JWT_SECRET is not defined")
    ensures r.Ok? ==> r.value.claims == AccessClaims(id, email, name) && r.value.secret == env.jwtSecret.value
    ensures r.Ok? && !IsSet(env.accessExpiresIn) ==> r.value.expiresIn == DefaultAccessExpiry
    ensures r.Ok? && IsSet(env.accessExpiresIn) ==> r.value.expiresIn == env.accessExpiresIn.value
  {
    if !IsSet(env.jwtSecret) then Err(MissingSecret("JWT_SECRET is not defined"))
    else Ok(SignRequest(AccessClaims(id, email, name), env.jwtSecret.value, OrDefault(env.accessExpiresIn, DefaultAccessExpiry)))
  }

  /** generateRefreshToken: the signing request for a refresh token, or the error when JWT_REFRESH_SECRET is unset. */
  function GenerateRefreshToken(env: Env, id: int): (r: Result<SignRequest, ConfigError>)
    ensures r.Ok? <==> IsSet(env.refreshSecret)
    ensures r.Err? ==> r.error == MissingSecret("JWT_REFRESH_SECRET is not defined")
    ensures r.Ok? ==> r.value.claims == RefreshClaims(id) && r.value.secret == env.refreshSecret.value
    ensures r.Ok? && !IsSet(env.refreshExpiresIn) ==> r.value.expiresIn == DefaultRefreshExpiry
    ensures r.Ok? && IsSet(env.refreshExpiresIn) ==> r.value.expiresIn == env.refreshExpiresIn.value
  {
    if !IsSet(env.refreshSecret) then Err(MissingSecret("JWT_REFRESH_SECRET is not defined"))
    else Ok(SignRequest(RefreshClaims(id), env.refreshSecret.value, OrDefault(env.refreshExpiresIn, DefaultRefreshExpiry)))
  }

  /**
   * The two issuers never produce the same signing request: the claim shapes differ, so even
   * with one secret configured for both, an access and a refresh token are signed over different claims.
   */
  lemma IssuersDisjoint(env: Env, id: int, email: string, name: string, id': int)
    requires IsSet(env.jwtSecret) && IsSet(env.refreshSecret)
    ensures GenerateAccessToken(env, id, email, name).value != GenerateRefreshToken(env, id').value
    ensures GenerateAccessToken(env, id, email, name).value.claims.AccessClaims?
    ensures GenerateRefreshToken(env, id').value.claims.RefreshClaims?
  {
  }
}
