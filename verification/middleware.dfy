/**
 * The verification middleware of middleware/auth.ts. `authenticateToken` either answers the
 * request itself (401, 403 or 500) or attaches the verified identity to the request and calls
 * `next`; `optionalAuth` always calls `next` and attaches the identity only when verification
 * succeeds. The branch structure is the pure function `Authenticate`; the methods on
 * `Exchange` perform its side effects.
 */
module AuthMiddleware {
  import opened Wrappers
  import opened Tokens
  import Text

  /** `authHeader?.split(" ")[1]`, kept only when truthy: the second space-separated field, if non-empty. */
  function BearerToken(header: Option<string>): (t: Option<string>)
    ensures header.None? ==> t.None?
    ensures t.Some? ==> t.value != "" && ' ' !in t.value
  {
    if header.None? then None
    else
      var fields := Text.Split(header.value);
      if |fields| >= 2 && fields[1] != "" then Some(fields[1]) else None
  }

  /** A scheme followed by a single trailing space, such as "Bearer ", carries no token. */
  lemma TrailingSpaceNoToken(scheme: string)
    requires ' ' !in scheme
    ensures BearerToken(Some(scheme + " ")) == None
  {
    Text.SplitAfterWord(scheme, "");
    assert scheme + " " + "" == scheme + " ";
  }

  /** A header without a space carries no token. */
  lemma NoSpaceNoToken(header: string)
    requires ' ' !in header
    ensures BearerToken(Some(header)) == None
  {
    Text.SplitWord(header);
  }

  /**
   * The token is the field after the first space, whatever the first word is: the scheme is
   * never compared with "Bearer", and anything after a further space is ignored.
   */
  lemma TokenAfterAnyScheme(scheme: string, token: string, tail: string)
    requires ' ' !in scheme && ' ' !in token && token != ""
    ensures BearerToken(Some(scheme + " " + token)) == Some(token)
    ensures BearerToken(Some(scheme + " " + token + " " + tail)) == Some(token)
  {
    Text.SplitAfterWord(scheme, token);
    Text.SplitWord(token);
    Text.SplitAfterWord(scheme, token + " " + tail);
    Text.SplitAfterWord(token, tail);
    assert scheme + " " + token + " " + tail == scheme + " " + (token + " " + tail);
  }

  /** Two spaces after the scheme leave an empty second field, which counts as no token. */
  lemma DoubleSpaceNoToken(scheme: string, tail: string)
    requires ' ' !in scheme
    ensures BearerToken(Some(scheme + "  " + tail)) == None
  {
    Text.SplitAfterWord(scheme, " " + tail);
    assert scheme + "  " + tail == scheme + " " + (" " + tail);
    assert Text.Split(" " + tail)[0] == "" by {
      assert (" " + tail)[1..] == tail;
    }
  }

  /** `req.user`: the verified identity attached to a request. */
  datatype ReqUser = ReqUser(id: int, email: Option<string>, iat: Option<int>, exp: Option<int>)

  /** The identity built from a decoded payload: exactly {id, email, iat, exp}. */
  function UserOf(p: Payload): ReqUser {
    ReqUser(p.id, p.email, p.iat, p.exp)
  }

  /** What `authenticateToken` does with a request: answer it, or pass it on with an identity. */
  datatype Decision = Reject(status: int, error: string) | Proceed(user: ReqUser)

  /**
   * The branches of authenticateToken, given the Authorization header, JWT_SECRET and the
   * verifier: no token is 401; an unset secret throws inside the try and is 500; an expired
   * token is 401, any other token error 403, any other error 500; success proceeds with the
   * identity taken from the payload.
   */
  function Authenticate(header: Option<string>, secret: Option<string>, verify: Verifier): (d: Decision)
    ensures BearerToken(header).None? ==> d == Reject(401, "Access denied. No token provided.")
    ensures BearerToken(header).Some? && !IsSet(secret) ==> d == Reject(500, "Authentication error")
    ensures d.Proceed? <==> BearerToken(header).Some? && IsSet(secret) && verify(BearerToken(header).value, secret.value).Verified?
    ensures d.Proceed? ==> d.user == UserOf(verify(BearerToken(header).value, secret.value).payload)
    ensures d.Reject? && d.status == 403 <==>
      BearerToken(header).Some? && IsSet(secret) && verify(BearerToken(header).value, secret.value) == Invalid
    ensures BearerToken(header).Some? && IsSet(secret) && verify(BearerToken(header).value, secret.value) == Expired ==>
      d == Reject(401, "Token expired")
    ensures BearerToken(header).Some? && IsSet(secret) && verify(BearerToken(header).value, secret.value) == Invalid ==>
      d == Reject(403, "Invalid token")
    ensures BearerToken(header).Some? && IsSet(secret) && verify(BearerToken(header).value, secret.value) == OtherError ==>
      d == Reject(500, "Authentication error")
    ensures d.Reject? ==> d.status in {401, 403, 500}
  {
    match BearerToken(header)
    case None => Reject(401, "Access denied. No token provided.")
    case Some(token) =>
      if !IsSet(secret) then Reject(500, "Authentication error")
      else
        match verify(token, secret.value)
        case Verified(p) => Proceed(UserOf(p))
        case Expired => Reject(401, "Token expired")
        case Invalid => Reject(403, "Invalid token")
        case OtherError => Reject(500, "Authentication error")
  }

  /** The decision depends only on the token field: any two scheme words give the same answer. */
  lemma SchemeNeverChecked(scheme1: string, scheme2: string, token: string, secret: Option<string>, verify: Verifier)
    requires ' ' !in scheme1 && ' ' !in scheme2 && ' ' !in token
    ensures Authenticate(Some(scheme1 + " " + token), secret, verify) == Authenticate(Some(scheme2 + " " + token), secret, verify)
  {
    if token == "" {
      Text.SplitAfterWord(scheme1, token);
      Text.SplitAfterWord(scheme2, token);
    } else {
      TokenAfterAnyScheme(scheme1, token, "");
      TokenAfterAnyScheme(scheme2, token, "");
    }
  }

  /** The identity `optionalAuth` attaches: present exactly when a token, the secret and verification all succeed. */
  function OptionalUser(header: Option<string>, secret: Option<string>, verify: Verifier): (u: Option<ReqUser>)
    ensures u.Some? <==> BearerToken(header).Some? && IsSet(secret) && verify(BearerToken(header).value, secret.value).Verified?
  {
    match BearerToken(header)
    case None => None
    case Some(token) =>
      if !IsSet(secret) then None
      else
        match verify(token, secret.value)
        case Verified(p) => Some(UserOf(p))
        case _ => None
  }

  /** optionalAuth identifies a caller exactly when authenticateToken would let it through, with the same identity. */
  lemma OptionalAgreesWithAuthenticate(header: Option<string>, secret: Option<string>, verify: Verifier)
    ensures OptionalUser(header, secret, verify).Some? <==> Authenticate(header, secret, verify).Proceed?
    ensures OptionalUser(header, secret, verify).Some? ==>
      OptionalUser(header, secret, verify).value == Authenticate(header, secret, verify).user
  {
  }

  /** The answer a middleware sent: status and error text. */
  datatype Sent = Sent(status: int, error: string)

  /** One request/response pair as the middleware sees it: the header it reads and what it changes. */
  class Exchange {
    const authorization: Option<string>
    var user: Option<ReqUser>
    var response: Option<Sent>
    var nextCalls: nat

    constructor (authorization: Option<string>)
      ensures this.authorization == authorization
      ensures user.None? && response.None? && nextCalls == 0
    {
      this.authorization := authorization;
      user := None;
      response := None;
      nextCalls := 0;
    }
  }

  /**
   * authenticateToken: on success sets `req.user` and calls `next` once; on every rejecting
   * path it sends the status and never calls `next`.
   */
  method AuthenticateToken(x: Exchange, env: Env, verify: Verifier)
    modifies x
    ensures Authenticate(x.authorization, env.jwtSecret, verify).Proceed? ==>
      && x.user == Some(Authenticate(x.authorization, env.jwtSecret, verify).user)
      && x.nextCalls == old(x.nextCalls) + 1
      && x.response == old(x.response)
    ensures Authenticate(x.authorization, env.jwtSecret, verify).Reject? ==>
      && x.response == Some(Sent(Authenticate(x.authorization, env.jwtSecret, verify).status,
                                 Authenticate(x.authorization, env.jwtSecret, verify).error))
      && x.nextCalls == old(x.nextCalls)
      && x.user == old(x.user)
  {
    var token := BearerToken(x.authorization);
    if token.None? {
      x.response := Some(Sent(401, "Access denied. No token provided."));
      return;
    }
    if !IsSet(env.jwtSecret) {
      x.response := Some(Sent(500, "Authentication error"));
      return;
    }
    var outcome := verify(token.value, env.jwtSecret.value);
    match outcome {
      case Verified(p) =>
        x.user := Some(UserOf(p));
        x.nextCalls := x.nextCalls + 1;
      case Expired =>
        x.response := Some(Sent(401, "Token expired"));
      case Invalid =>
        x.response := Some(Sent(403, "Invalid token"));
      case OtherError =>
        x.response := Some(Sent(500, "Authentication error"));
    }
  }

  /** optionalAuth: never answers, always calls `next` exactly once, and sets `req.user` to the optional identity. */
  method OptionalAuth(x: Exchange, env: Env, verify: Verifier)
    modifies x
    ensures x.user == OptionalUser(x.authorization, env.jwtSecret, verify)
    ensures x.nextCalls == old(x.nextCalls) + 1
    ensures x.response == old(x.response)
  {
    var token := BearerToken(x.authorization);
    if token.None? {
      x.user := None;
      x.nextCalls := x.nextCalls + 1;
      return;
    }
    if !IsSet(env.jwtSecret) {
      x.user := None;
      x.nextCalls := x.nextCalls + 1;
      return;
    }
    match verify(token.value, env.jwtSecret.value) {
      case Verified(p) => x.user := Some(UserOf(p));
      case _ => x.user := None;
    }
    x.nextCalls := x.nextCalls + 1;
  }
}
