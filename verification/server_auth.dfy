/**
 * The session lifecycle of the API server (server.ts:112-370): registration, login, refresh
 * and logout over a user table that keeps one nullable refresh token per user. Each handler
 * is specified by a step function from the table before the request to the table after it
 * and the response; the class `Database` performs the same reads and writes in the order the
 * handlers issue them.
 */
module ServerAuth {
  import opened Wrappers
  import opened Tokens
  import Text

  /** A row of the user table. `password` holds the bcrypt hash. */
  datatype User = User(id: int, email: string, name: string, password: string, refreshToken: Option<string>)

  /** A user as returned to clients. */
  datatype SafeUser = SafeUser(id: int, email: string, name: string)

  /** sanitizeUser: every field except `password` and `refreshToken`. */
  function SanitizeUser(u: User): (r: SafeUser)
    ensures r.id == u.id && r.email == u.email && r.name == u.name
  {
    SafeUser(u.id, u.email, u.name)
  }

  /** Two rows sanitize alike exactly when they agree on every field but the password and the refresh token. */
  lemma SanitizeHidesExactlySecrets(u: User, v: User)
    ensures SanitizeUser(u) == SanitizeUser(v) <==> u.id == v.id && u.email == v.email && u.name == v.name
    ensures SanitizeUser(u) == SanitizeUser(u.(password := v.password, refreshToken := v.refreshToken))
  {
  }

  datatype Body =
    | ErrorBody(error: string, message: string)
    | SessionBody(message: string, user: SafeUser, accessToken: string, refreshToken: string)
    | AccessBody(accessToken: string)
    | MessageBody(message: string)

  datatype Response = Response(status: int, body: Body)

  const ValidationFailed: Response := Response(400, ErrorBody("Validation failed", ""))
  const UserExists: Response := Response(409, ErrorBody("User already exists", "An account with this email already exists"))
  const RegistrationFailed: Response := Response(500, ErrorBody("Registration failed", "An error occurred during registration"))
  const InvalidCredentials: Response := Response(401, ErrorBody("Invalid credentials", "Email or password is incorrect"))
  const LoginFailed: Response := Response(500, ErrorBody("Login failed", "An error occurred during login"))
  const RefreshTokenRequired: Response := Response(401, ErrorBody("Refresh token required", ""))
  const InvalidRefreshToken: Response := Response(403, ErrorBody("Invalid refresh token", ""))
  const InvalidOrExpiredRefreshToken: Response := Response(403, ErrorBody("Invalid or expired refresh token", ""))
  const LoggedOut: Response := Response(200, MessageBody("Logged out successfully"))
  const LogoutFailed: Response := Response(500, ErrorBody("Logout failed", ""))

  /** The user table: rows by id, the unique index on email, and the next id the database will assign. */
  datatype Table = Table(rows: map<int, User>, byEmail: map<string, int>, nextId: int)

  /** Row keys match row ids and lie below `nextId`; the email index is exact, so emails are unique. */
  ghost predicate TableValid(t: Table) {
    && (forall id | id in t.rows :: t.rows[id].id == id && id < t.nextId)
    && (forall e | e in t.byEmail :: t.byEmail[e] in t.rows && t.rows[t.byEmail[e]].email == e)
    && (forall id | id in t.rows :: t.rows[id].email in t.byEmail && t.byEmail[t.rows[id].email] == id)
  }

  /** The state of the table after a handler, with the response it sent. */
  datatype Step = Step(table: Table, response: Response)

  predicate HasLower(s: string) { exists i :: 0 <= i < |s| && 'a' <= s[i] <= 'z' }
  predicate HasUpper(s: string) { exists i :: 0 <= i < |s| && 'A' <= s[i] <= 'Z' }
  predicate HasDigit(s: string) { exists i :: 0 <= i < |s| && '0' <= s[i] <= '9' }

  /**
   * registerValidation: a valid email (the library's isEmail, given as `emailValid`), a trimmed
   * name of 2 to 100 characters, and a password of at least 8 characters matching
   * /^(?=.*[a-z])(?=.*[A-Z])(?=.*\d)/, whose `.` stops at the first line terminator.
   */
  predicate RegisterInputValid(emailValid: bool, name: string, password: string) {
    && emailValid
    && 2 <= |Text.Trim(name)| <= 100
    && |password| >= 8
    && HasLower(Text.FirstLine(password))
    && HasUpper(Text.FirstLine(password))
    && HasDigit(Text.FirstLine(password))
  }

  /** loginValidation: a valid email and a non-empty password. */
  predicate LoginInputValid(emailValid: bool, password: string) {
    emailValid && password != ""
  }

  datatype Issued = Issued(accessToken: string, refreshToken: string)

  /** Both issuers in turn, signed; absent when either secret is unset (the issuer throws). */
  function IssueTokens(env: Env, sign: Signer, id: int, email: string, name: string): (r: Option<Issued>)
    ensures r.Some? <==> IsSet(env.jwtSecret) && IsSet(env.refreshSecret)
    ensures r.Some? ==>
      && r.value.accessToken == sign(SignRequest(AccessClaims(id, email, name), env.jwtSecret.value, OrDefault(env.accessExpiresIn, DefaultAccessExpiry)))
      && r.value.refreshToken == sign(SignRequest(RefreshClaims(id), env.refreshSecret.value, OrDefault(env.refreshExpiresIn, DefaultRefreshExpiry)))
  {
    var access := GenerateAccessToken(env, id, email, name);
    var refresh := GenerateRefreshToken(env, id);
    if access.Err? || refresh.Err? then None
    else Some(Issued(sign(access.value), sign(refresh.value)))
  }

  /**
   * POST /auth/register. Invalid input is 400 and an existing email 409, with no write. Otherwise
   * the row is created (trimmed name, hashed password, no refresh token) BEFORE the tokens are
   * issued: if a secret is unset the handler answers 500 and the row stays without a refresh
   * token; otherwise the new refresh token is stored and 201 carries the sanitized user and
   * both tokens. Existing rows are never touched.
   */
  function RegisterStep(t: Table, emailValid: bool, email: string, name: string, password: string,
                        hashed: string, env: Env, sign: Signer): (s: Step)
    requires TableValid(t)
    ensures TableValid(s.table)
    ensures !RegisterInputValid(emailValid, name, password) ==> s == Step(t, ValidationFailed)
    ensures RegisterInputValid(emailValid, name, password) && email in t.byEmail ==> s == Step(t, UserExists)
    ensures RegisterInputValid(emailValid, name, password) && email !in t.byEmail ==>
      && s.table.nextId == t.nextId + 1
      && s.table.rows.Keys == t.rows.Keys + {t.nextId}
      && (forall id | id in t.rows :: s.table.rows[id] == t.rows[id])
      && s.table.byEmail == t.byEmail[email := t.nextId]
      && var u := s.table.rows[t.nextId];
         && u.email == email && u.name == Text.Trim(name) && u.password == hashed
         && (s.response.status == 201 <==> IsSet(env.jwtSecret) && IsSet(env.refreshSecret))
         && (s.response.status != 201 ==> s.response == RegistrationFailed && u.refreshToken.None?)
         && (s.response.status == 201 ==>
              var issued := IssueTokens(env, sign, t.nextId, email, Text.Trim(name)).value;
              && u.refreshToken == Some(issued.refreshToken)
              && s.response.body == SessionBody("User registered successfully", SanitizeUser(u), issued.accessToken, issued.refreshToken))
  {
    if !RegisterInputValid(emailValid, name, password) then Step(t, ValidationFailed)
    else if email in t.byEmail then Step(t, UserExists)
    else
      var id := t.nextId;
      var created := User(id, email, Text.Trim(name), hashed, None);
      var t' := Table(t.rows[id := created], t.byEmail[email := id], id + 1);
      match IssueTokens(env, sign, id, created.email, created.name)
      case None => Step(t', RegistrationFailed)
      case Some(issued) =>
        Step(t'.(rows := t'.rows[id := created.(refreshToken := Some(issued.refreshToken))]),
             Response(201, SessionBody("User registered successfully", SanitizeUser(created), issued.accessToken, issued.refreshToken)))
  }

  /**
   * POST /auth/login. Invalid input is 400. An unknown email and a wrong password both get the
   * same 401 response. A missing secret is 500 with no write. Otherwise the user's stored
   * refresh token is overwritten with the newly issued one and 200 carries the sanitized user
   * and both tokens.
   */
  function LoginStep(t: Table, emailValid: bool, email: string, password: string,
                     matches: (string, string) -> bool, env: Env, sign: Signer): (s: Step)
    requires TableValid(t)
    ensures TableValid(s.table)
    ensures !LoginInputValid(emailValid, password) ==> s == Step(t, ValidationFailed)
    ensures s.response.status == 401 <==>
      LoginInputValid(emailValid, password) && (email !in t.byEmail || !matches(password, t.rows[t.byEmail[email]].password))
    ensures s.response.status == 400 <==> !LoginInputValid(emailValid, password)
    ensures s.response.status == 401 ==> s == Step(t, InvalidCredentials)
    ensures LoginInputValid(emailValid, password) && email in t.byEmail && matches(password, t.rows[t.byEmail[email]].password) ==>
      (s.response.status == 200 <==> IsSet(env.jwtSecret) && IsSet(env.refreshSecret))
    ensures s.response.status == 500 <==>
      && LoginInputValid(emailValid, password) && email in t.byEmail && matches(password, t.rows[t.byEmail[email]].password)
      && !(IsSet(env.jwtSecret) && IsSet(env.refreshSecret))
    ensures s.response.status == 500 ==> s == Step(t, LoginFailed)
    ensures s.response.status in {200, 400, 401, 500}
    ensures s.response.status == 200 ==>
      && LoginInputValid(emailValid, password) && email in t.byEmail
      && var u := t.rows[t.byEmail[email]];
         && matches(password, u.password)
         && IsSet(env.jwtSecret) && IsSet(env.refreshSecret)
         && var issued := IssueTokens(env, sign, u.id, u.email, u.name).value;
            && s.table == t.(rows := t.rows[u.id := u.(refreshToken := Some(issued.refreshToken))])
            && s.response.body == SessionBody("Login successful", SanitizeUser(u), issued.accessToken, issued.refreshToken)
  {
    if !LoginInputValid(emailValid, password) then Step(t, ValidationFailed)
    else if email !in t.byEmail then Step(t, InvalidCredentials)
    else
      var u := t.rows[t.byEmail[email]];
      assert u.id == t.byEmail[email];
      if !matches(password, u.password) then Step(t, InvalidCredentials)
      else
        match IssueTokens(env, sign, u.id, u.email, u.name)
        case None => Step(t, LoginFailed)
        case Some(issued) =>
          Step(t.(rows := t.rows[u.id := u.(refreshToken := Some(issued.refreshToken))]),
               Response(200, SessionBody("Login successful", SanitizeUser(u), issued.accessToken, issued.refreshToken)))
  }

  /** The request body's `refreshToken` is truthy. */
  predicate Presented(token: Option<string>) {
    token.Some? && token.value != ""
  }

  /**
   * POST /auth/refresh, which never writes. No token is 401. Every failure inside the try is
   * 403: an unset JWT_REFRESH_SECRET, a token the verifier rejects for any reason, an unknown
   * user, a stored token different from the presented one, and an unset JWT_SECRET when the
   * new access token is issued. Otherwise 200 carries a new access token for the stored user.
   */
  function RefreshResponse(t: Table, env: Env, presented: Option<string>, verify: Verifier, sign: Signer): (r: Response)
    ensures r.status in {200, 401, 403}
    ensures r.status == 401 <==> !Presented(presented)
    ensures r.status == 401 ==> r == RefreshTokenRequired
    ensures Presented(presented) && !IsSet(env.refreshSecret) ==> r == InvalidOrExpiredRefreshToken
    ensures Presented(presented) && IsSet(env.refreshSecret) && !verify(presented.value, env.refreshSecret.value).Verified?
      ==> r == InvalidOrExpiredRefreshToken
    ensures Presented(presented) && IsSet(env.refreshSecret) && verify(presented.value, env.refreshSecret.value).Verified?
      ==> var id := verify(presented.value, env.refreshSecret.value).payload.id;
          && (id !in t.rows || t.rows[id].refreshToken != presented ==> r == InvalidRefreshToken)
          && (id in t.rows && t.rows[id].refreshToken == presented && !IsSet(env.jwtSecret) ==> r == InvalidOrExpiredRefreshToken)
    ensures r.status == 200 <==>
      && Presented(presented) && IsSet(env.refreshSecret)
      && verify(presented.value, env.refreshSecret.value).Verified?
      && var id := verify(presented.value, env.refreshSecret.value).payload.id;
         && id in t.rows && t.rows[id].refreshToken == presented
         && IsSet(env.jwtSecret)
    ensures r.status == 200 ==>
      var u := t.rows[verify(presented.value, env.refreshSecret.value).payload.id];
      r.body == AccessBody(sign(GenerateAccessToken(env, u.id, u.email, u.name).value))
  {
    if !Presented(presented) then RefreshTokenRequired
    else if !IsSet(env.refreshSecret) then InvalidOrExpiredRefreshToken
    else
      match verify(presented.value, env.refreshSecret.value)
      case Verified(p) =>
        if p.id !in t.rows || t.rows[p.id].refreshToken != presented then InvalidRefreshToken
        else
          var u := t.rows[p.id];
          (match GenerateAccessToken(env, u.id, u.email, u.name)
           case Err(_) => InvalidOrExpiredRefreshToken
           case Ok(request) => Response(200, AccessBody(sign(request))))
      case _ => InvalidOrExpiredRefreshToken
  }

  /**
   * POST /auth/logout for the identity the middleware verified: the stored refresh token
   * becomes null; an id with no row makes the update throw, which is 500.
   */
  function LogoutStep(t: Table, id: int): (s: Step)
    requires TableValid(t)
    ensures TableValid(s.table)
    ensures id in t.rows ==> s.response == LoggedOut && s.table == t.(rows := t.rows[id := t.rows[id].(refreshToken := None)])
    ensures id !in t.rows ==> s == Step(t, LogoutFailed)
  {
    if id !in t.rows then Step(t, LogoutFailed)
    else Step(t.(rows := t.rows[id := t.rows[id].(refreshToken := None)]), LoggedOut)
  }

  /** After logout, no presented token that verifies as that user refreshes: the answer is 403. */
  lemma LogoutRevokesRefresh(t: Table, id: int, env: Env, presented: Option<string>, verify: Verifier, sign: Signer)
    requires TableValid(t) && id in t.rows && Presented(presented)
    requires IsSet(env.refreshSecret) ==>
      verify(presented.value, env.refreshSecret.value).Verified? ==> verify(presented.value, env.refreshSecret.value).payload.id == id
    ensures RefreshResponse(LogoutStep(t, id).table, env, presented, verify, sign).status == 403
  {
  }

  /**
   * After a successful login, the refresh token it returned refreshes, provided it is a non-empty
   * string the verifier accepts with the user's id in its payload (the other payload fields are
   * not consulted); and it keeps doing so, because refresh does not rotate.
   */
  lemma LoginEnablesRefresh(t: Table, emailValid: bool, email: string, password: string,
                            matches: (string, string) -> bool, env: Env, sign: Signer, verify: Verifier, sign': Signer)
    requires TableValid(t)
    requires LoginStep(t, emailValid, email, password, matches, env, sign).response.status == 200
    requires var rt := LoginStep(t, emailValid, email, password, matches, env, sign).response.body.refreshToken;
      && rt != ""
      && verify(rt, env.refreshSecret.value).Verified?
      && verify(rt, env.refreshSecret.value).payload.id == t.byEmail[email]
    ensures var s := LoginStep(t, emailValid, email, password, matches, env, sign);
      RefreshResponse(s.table, env, Some(s.response.body.refreshToken), verify, sign').status == 200
  {
    var s := LoginStep(t, emailValid, email, password, matches, env, sign);
    var id := t.byEmail[email];
    assert t.rows[id].id == id;
    assert s.table.rows[id].refreshToken == Some(s.response.body.refreshToken);
  }

  /** An unknown email and a wrong password are indistinguishable to the caller. */
  lemma LoginHidesWhichCheckFailed(t: Table, emailValid: bool, unknown: string, known: string, password: string,
                                   matches: (string, string) -> bool, env: Env, sign: Signer)
    requires TableValid(t) && LoginInputValid(emailValid, password)
    requires unknown !in t.byEmail
    requires known in t.byEmail && !matches(password, t.rows[t.byEmail[known]].password)
    ensures LoginStep(t, emailValid, unknown, password, matches, env, sign).response
         == LoginStep(t, emailValid, known, password, matches, env, sign).response
  {
  }

  /** The user table as the handlers see it through the database client. */
  class Database {
    var rows: map<int, User>
    var byEmail: map<string, int>
    var nextId: int

    function State(): Table
      reads this
    {
      Table(rows, byEmail, nextId)
    }

    ghost predicate Valid()
      reads this
    {
      TableValid(State())
    }

    constructor ()
      ensures Valid() && rows == map[] && byEmail == map[] && nextId == 1
    {
      rows, byEmail, nextId := map[], map[], 1;
    }

    /** POST /auth/register: findUnique by email, create, issue, update. */
    method Register(emailValid: bool, email: string, name: string, password: string,
                    hashed: string, env: Env, sign: Signer) returns (r: Response)
      requires Valid()
      modifies this
      ensures Valid()
      ensures State() == RegisterStep(old(State()), emailValid, email, name, password, hashed, env, sign).table
      ensures r == RegisterStep(old(State()), emailValid, email, name, password, hashed, env, sign).response
    {
      if !RegisterInputValid(emailValid, name, password) {
        return ValidationFailed;
      }
      if email in byEmail {
        return UserExists;
      }
      var id := nextId;
      var created := User(id, email, Text.Trim(name), hashed, None);
      rows := rows[id := created];
      byEmail := byEmail[email := id];
      nextId := nextId + 1;
      var access := GenerateAccessToken(env, id, created.email, created.name);
      if access.Err? {
        return RegistrationFailed;
      }
      var refresh := GenerateRefreshToken(env, id);
      if refresh.Err? {
        return RegistrationFailed;
      }
      var accessToken, refreshToken := sign(access.value), sign(refresh.value);
      rows := rows[id := created.(refreshToken := Some(refreshToken))];
      r := Response(201, SessionBody("User registered successfully", SanitizeUser(created), accessToken, refreshToken));
    }

    /** POST /auth/login: findUnique by email, compare, issue, update. */
    method Login(emailValid: bool, email: string, password: string,
                 matches: (string, string) -> bool, env: Env, sign: Signer) returns (r: Response)
      requires Valid()
      modifies this
      ensures Valid()
      ensures State() == LoginStep(old(State()), emailValid, email, password, matches, env, sign).table
      ensures r == LoginStep(old(State()), emailValid, email, password, matches, env, sign).response
    {
      if !LoginInputValid(emailValid, password) {
        return ValidationFailed;
      }
      if email !in byEmail {
        return InvalidCredentials;
      }
      var user := rows[byEmail[email]];
      assert user.id == byEmail[email];
      if !matches(password, user.password) {
        return InvalidCredentials;
      }
      var access := GenerateAccessToken(env, user.id, user.email, user.name);
      var refresh := GenerateRefreshToken(env, user.id);
      if access.Err? || refresh.Err? {
        return LoginFailed;
      }
      var accessToken, refreshToken := sign(access.value), sign(refresh.value);
      rows := rows[user.id := user.(refreshToken := Some(refreshToken))];
      r := Response(200, SessionBody("Login successful", SanitizeUser(user), accessToken, refreshToken));
    }

    /** POST /auth/refresh: reads the row and answers; the stored refresh token is left as it was. */
    method Refresh(env: Env, presented: Option<string>, verify: Verifier, sign: Signer) returns (r: Response)
      ensures r == RefreshResponse(State(), env, presented, verify, sign)
    {
      if !Presented(presented) {
        return RefreshTokenRequired;
      }
      if !IsSet(env.refreshSecret) {
        return InvalidOrExpiredRefreshToken;
      }
      var outcome := verify(presented.value, env.refreshSecret.value);
      if !outcome.Verified? {
        return InvalidOrExpiredRefreshToken;
      }
      var id := outcome.payload.id;
      if id !in rows || rows[id].refreshToken != presented {
        return InvalidRefreshToken;
      }
      var user := rows[id];
      var access := GenerateAccessToken(env, user.id, user.email, user.name);
      if access.Err? {
        return InvalidOrExpiredRefreshToken;
      }
      r := Response(200, AccessBody(sign(access.value)));
    }

    /** POST /auth/logout: sets the caller's refresh token to null. */
    method Logout(id: int) returns (r: Response)
      requires Valid()
      modifies this
      ensures Valid()
      ensures State() == LogoutStep(old(State()), id).table
      ensures r == LogoutStep(old(State()), id).response
    {
      if id !in rows {
        return LogoutFailed;
      }
      rows := rows[id := rows[id].(refreshToken := None)];
      r := LoggedOut;
    }
  }
}
