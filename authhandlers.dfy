/**
 * back-end/internal/handlers/auth.go: registration, password login, Google sign-in and the
 * refresh endpoint as early-return chains over the users table. A request body that does
 * not decode is None; bcrypt, Google's answers and the clock are parameters.
 */
module AuthHandlers {
  import opened Wrappers
  import opened Models
  import opened Jwt
  import opened HttpModel
  import opened Database
  import opened CookieJar
  import Middleware

  const InvalidJson: string := "Invalid JSON"
  const UserExists: string := "User already exist"
  const HashFailed: string := "Failed to hash password"
  const CreateFailed: string := "Failed to create user"
  const TokenFailed: string := "Failed to generate token"
  const InvalidCredentials: string := "Invalid email or password"
  const EmailInUseMessage: string := "Email already in use"
  const RegisteredMessage: string := "User registered successfully"
  const LoginMessage: string := "Login Successful"
  const GoogleProvider: string := "google"
  const RefreshCookieName: string := "refreshToken"
  const RefreshCookieLifetimeSeconds: int := 24 * 60 * 60

  /** bcrypt.GenerateFromPassword (which may fail) and bcrypt.CompareHashAndPassword. */
  datatype Bcrypt = Bcrypt(hash: string -> Option<string>, check: (string, string) -> bool)

  /** What the OAuth exchange and the userinfo call give for the posted code. */
  datatype GoogleReply = ExchangeFailed | UserInfoFailed | DecodeFailed | Profile(user: GoogleUser)

  /** Some row of the table has this email: GetUserByEmail then returns a user. */
  ghost predicate EmailInUse(users: map<int, User>, email: string)
  {
    exists id | id in users :: users[id].email == email
  }

  /** setHTTPCookie: the refresh token, on path "/", for 24 hours, readable by scripts, sent cross-site. */
  function SetHTTPCookie(refreshToken: string, now: int): Cookie
  {
    Cookie(RefreshCookieName, refreshToken, "/", now + RefreshCookieLifetimeSeconds, false, false, SameSiteNoneMode)
  }

  /** The cookie LogoutHandler sets: value "/", path "/api/v1/refresh", expired at the Unix epoch. */
  function LogoutCookie(): Cookie
  {
    Cookie(RefreshCookieName, "/", "/api/v1/refresh", 0, true, true, SameSiteLaxMode)
  }

  /** LogoutHandler: sets LogoutCookie and answers the JSON string "Logout successfull". */
  function LogoutHandler(): Response
  {
    JsonResponse(StatusOK, [LogoutCookie()], JString("Logout successfull"))
  }

  /**
   * As written, logging out does not log out: the expired cookie is stored under path
   * "/api/v1/refresh", a different identity from the "/" path the refresh token was set on,
   * so the browser keeps sending the refresh token.
   */
  lemma LogoutLeavesRefreshCookie(token: string, loginAt: int, logoutAt: int)
    requires loginAt <= logoutAt < loginAt + RefreshCookieLifetimeSeconds
    ensures var jar := Store(Store(map[], SetHTTPCookie(token, loginAt), loginAt), LogoutHandler().cookies[0], logoutAt);
            (RefreshCookieName, "/") in jar && jar[(RefreshCookieName, "/")].value == token
  {
    assert (RefreshCookieName, "/") != (RefreshCookieName, LogoutCookie().path);
  }

  /** The logout cookie on the refresh cookie's own path "/". */
  function CorrectedLogoutCookie(): Cookie
  {
    LogoutCookie().(path := "/")
  }

  /** LogoutHandler with the corrected cookie. */
  function CorrectedLogoutHandler(): Response
  {
    JsonResponse(StatusOK, [CorrectedLogoutCookie()], JString("Logout successfull"))
  }

  /** With the corrected cookie, whatever the jar held, no refresh token on "/" survives a logout after the epoch; other cookies stay. */
  lemma CorrectedLogoutClearsRefreshCookie(jar: Jar, now: int)
    requires now > 0
    ensures (RefreshCookieName, "/") !in Store(jar, CorrectedLogoutHandler().cookies[0], now)
    ensures forall key | key in jar && key != (RefreshCookieName, "/") :: key in Store(jar, CorrectedLogoutHandler().cookies[0], now)
  {
  }

  /** The row Register inserts for req with this hash, as the table stores it. */
  function RegisteredRow(id: int, req: RegisterReq, hash: string, now: int): User
  {
    User(id, req.name, req.email, hash, "", now, now)
  }

  /** The row AuthGoogle inserts for a new Google profile. */
  function GoogleRow(id: int, profile: GoogleUser, now: int): User
  {
    User(id, profile.name, profile.email, "", GoogleProvider, now, now)
  }

  /** The response of a successful sign-in for user: both tokens, the refresh one as a cookie. */
  function SignedIn(status: int, message: string, k: Keyring, user: User, now: int): Response
    requires GenerateJWT(k, user, now).Ok? && GenerateRefreshJWT(k, user, now).Ok?
  {
    JsonResponse(status, [SetHTTPCookie(GenerateRefreshJWT(k, user, now).value, now)],
                 JAuth(message, GenerateJWT(k, user, now).value, user))
  }

  /** Register. */
  method Register(db: DB, body: Option<RegisterReq>, crypt: Bcrypt, k: Keyring, now: int) returns (resp: Response)
    requires db.Valid()
    modifies db`users, db`nextUserId
    ensures db.Valid()
    ensures body.None? ==> resp == HttpError(InvalidJson, StatusBadRequest) && db.users == old(db.users)
    ensures body.Some? && db.online && EmailInUse(old(db.users), body.value.email) ==>
              resp == HttpError(UserExists, StatusConflict) && db.users == old(db.users)
    ensures db.users == old(db.users)
            || (&& body.Some? && db.online && !EmailInUse(old(db.users), body.value.email)
                && crypt.hash(body.value.password).Some?
                && db.users == old(db.users)[old(db.nextUserId) := RegisteredRow(old(db.nextUserId), body.value, crypt.hash(body.value.password).value, now)])
    ensures body.Some? && db.online && !EmailInUse(old(db.users), body.value.email)
            && crypt.hash(body.value.password).Some? && old(db.nextUserId) <= Int4Max ==>
              var row := RegisteredRow(old(db.nextUserId), body.value, crypt.hash(body.value.password).value, now);
              && db.users == old(db.users)[row.id := row]
              && (GenerateJWT(k, CreatedView(row), now).Ok? && GenerateRefreshJWT(k, CreatedView(row), now).Ok? ==>
                    resp == SignedIn(StatusCreated, RegisteredMessage, k, CreatedView(row), now))
    ensures resp.status == StatusCreated ==>
              && body.Some? && crypt.hash(body.value.password).Some?
              && var row := RegisteredRow(old(db.nextUserId), body.value, crypt.hash(body.value.password).value, now);
                 && db.users == old(db.users)[row.id := row]
                 && GenerateJWT(k, CreatedView(row), now).Ok? && GenerateRefreshJWT(k, CreatedView(row), now).Ok?
                 && resp == SignedIn(StatusCreated, RegisteredMessage, k, CreatedView(row), now)
    ensures resp.status in {StatusCreated, StatusBadRequest, StatusConflict, StatusInternalServerError}
  {
    if body.None? {
      return HttpError(InvalidJson, StatusBadRequest);
    }
    var req := body.value;
    var existing := db.GetUserByEmail(req.email);
    if existing.Ok? {
      return HttpError(UserExists, StatusConflict);
    }
    var hash := crypt.hash(req.password);
    if hash.None? {
      return HttpError(HashFailed, StatusInternalServerError);
    }
    var created := db.CreateUser(User(0, req.name, req.email, hash.value, "", 0, 0), now);
    if created.Err? {
      return HttpError(CreateFailed, StatusInternalServerError);
    }
    var token := GenerateJWT(k, created.value, now);
    if token.Err? {
      return HttpError(TokenFailed, StatusInternalServerError);
    }
    var refresh := GenerateRefreshJWT(k, created.value, now);
    if refresh.Err? {
      return HttpError(TokenFailed, StatusInternalServerError);
    }
    resp := SignedIn(StatusCreated, RegisteredMessage, k, created.value, now);
  }

  /** Login: the same 401 for an unknown email and a wrong password; success returns the stored row, hash included. */
  method Login(db: DB, body: Option<LoginRequest>, crypt: Bcrypt, k: Keyring, now: int) returns (resp: Response)
    requires db.Valid()
    ensures body.None? ==> resp == HttpError(InvalidJson, StatusBadRequest)
    ensures body.Some? && !(db.online && EmailInUse(db.users, body.value.email)) ==>
              resp == HttpError(InvalidCredentials, StatusUnauthorized)
    ensures body.Some? && (forall id | id in db.users && db.users[id].email == body.value.email ::
                             !crypt.check(body.value.password, db.users[id].passwordHash)) ==>
              resp == HttpError(InvalidCredentials, StatusUnauthorized)
    ensures body.Some? && db.online && EmailInUse(db.users, body.value.email)
            && (forall id | id in db.users && db.users[id].email == body.value.email ::
                  && crypt.check(body.value.password, db.users[id].passwordHash)
                  && GenerateJWT(k, db.users[id], now).Ok? && GenerateRefreshJWT(k, db.users[id], now).Ok?) ==>
              resp.status == StatusOK
    ensures resp.status == StatusOK ==>
              && body.Some?
              && exists id | id in db.users && db.users[id].email == body.value.email ::
                   && crypt.check(body.value.password, db.users[id].passwordHash)
                   && GenerateJWT(k, db.users[id], now).Ok? && GenerateRefreshJWT(k, db.users[id], now).Ok?
                   && resp == SignedIn(StatusOK, LoginMessage, k, db.users[id], now)
    ensures resp.status in {StatusOK, StatusBadRequest, StatusUnauthorized, StatusInternalServerError}
  {
    if body.None? {
      return HttpError(InvalidJson, StatusBadRequest);
    }
    var req := body.value;
    var found := db.GetUserByEmail(req.email);
    if found.Err? {
      return HttpError(InvalidCredentials, StatusUnauthorized);
    }
    var user := found.value;
    if !crypt.check(req.password, user.passwordHash) {
      return HttpError(InvalidCredentials, StatusUnauthorized);
    }
    var token := GenerateJWT(k, user, now);
    if token.Err? {
      return HttpError(TokenFailed, StatusInternalServerError);
    }
    var refresh := GenerateRefreshJWT(k, user, now);
    if refresh.Err? {
      return HttpError(TokenFailed, StatusInternalServerError);
    }
    resp := SignedIn(StatusOK, LoginMessage, k, user, now);
  }

  /** AuthGoogle: sign in a Google account, creating it on first use; an email owned by a password account is refused. */
  method AuthGoogle(db: DB, body: Option<string>, google: GoogleReply, k: Keyring, now: int) returns (resp: Response)
    requires db.Valid()
    modifies db`users, db`nextUserId
    ensures db.Valid()
    ensures body.None? ==> resp == HttpError(InvalidJson, StatusBadRequest)
    ensures body.Some? && google.ExchangeFailed? ==> resp == HttpError("Failed to exchange token", StatusBadRequest)
    ensures body.Some? && google.UserInfoFailed? ==> resp == HttpError("Failed to get user info", StatusBadRequest)
    ensures body.Some? && google.DecodeFailed? ==> resp == HttpError("Failed to decode user info", StatusBadRequest)
    ensures db.users == old(db.users)
            || (&& body.Some? && google.Profile? && db.online && !EmailInUse(old(db.users), google.user.email)
                && db.users == old(db.users)[old(db.nextUserId) := GoogleRow(old(db.nextUserId), google.user, now)])
    ensures body.Some? && google.Profile? && db.online && EmailInUse(old(db.users), google.user.email)
            && (forall id | id in old(db.users) && old(db.users)[id].email == google.user.email :: old(db.users)[id].thirdParty != GoogleProvider) ==>
              resp == HttpError(EmailInUseMessage, StatusBadRequest)
    ensures body.Some? && google.Profile? && !db.online ==>
              resp == HttpError(CreateFailed, StatusInternalServerError) && db.users == old(db.users)
    ensures body.Some? && google.Profile? && db.online && !EmailInUse(old(db.users), google.user.email) ==>
              if old(db.nextUserId) <= Int4Max then
                var row := GoogleRow(old(db.nextUserId), google.user, now);
                && db.users == old(db.users)[row.id := row]
                && (GenerateJWT(k, CreatedView(row), now).Ok? && GenerateRefreshJWT(k, CreatedView(row), now).Ok? ==>
                      resp == SignedIn(StatusOK, LoginMessage, k, CreatedView(row), now))
              else
                resp == HttpError(CreateFailed, StatusInternalServerError) && db.users == old(db.users)
    ensures body.Some? && google.Profile? && db.online && EmailInUse(old(db.users), google.user.email)
            && (forall id | id in old(db.users) && old(db.users)[id].email == google.user.email ::
                  && old(db.users)[id].thirdParty == GoogleProvider
                  && GenerateJWT(k, old(db.users)[id], now).Ok? && GenerateRefreshJWT(k, old(db.users)[id], now).Ok?) ==>
              resp.status == StatusOK && db.users == old(db.users)
    ensures resp.status == StatusOK ==>
              && google.Profile? && resp.body.JsonBody? && resp.body.value.JAuth?
              && resp.body.value.user.id in db.users
              && db.users[resp.body.value.user.id].email == google.user.email
              && db.users[resp.body.value.user.id].thirdParty == GoogleProvider
    ensures resp.status == StatusOK ==>
              && body.Some? && google.Profile?
              && resp.body.JsonBody? && resp.body.value.JAuth?
              && resp.body.value.user.email == google.user.email
              && resp.body.value.user.thirdParty == GoogleProvider
              && GenerateJWT(k, resp.body.value.user, now).Ok? && GenerateRefreshJWT(k, resp.body.value.user, now).Ok?
              && resp == SignedIn(StatusOK, LoginMessage, k, resp.body.value.user, now)
    ensures resp.status in {StatusOK, StatusBadRequest, StatusInternalServerError}
  {
    if body.None? {
      return HttpError(InvalidJson, StatusBadRequest);
    }
    match google {
      case ExchangeFailed => return HttpError("Failed to exchange token", StatusBadRequest);
      case UserInfoFailed => return HttpError("Failed to get user info", StatusBadRequest);
      case DecodeFailed => return HttpError("Failed to decode user info", StatusBadRequest);
      case Profile(profile) =>
        var found := db.GetUserByEmail(profile.email);
        var user: User;
        if found.Ok? {
          user := found.value;
        } else {
          var created := db.CreateUser(User(0, profile.name, profile.email, "", GoogleProvider, 0, 0), now);
          if created.Err? {
            return HttpError(CreateFailed, StatusInternalServerError);
          }
          user := created.value;
        }
        if user.thirdParty != GoogleProvider {
          return HttpError(EmailInUseMessage, StatusBadRequest);
        }
        var token := GenerateJWT(k, user, now);
        if token.Err? {
          return HttpError(TokenFailed, StatusInternalServerError);
        }
        var refresh := GenerateRefreshJWT(k, user, now);
        if refresh.Err? {
          return HttpError(TokenFailed, StatusInternalServerError);
        }
        resp := SignedIn(StatusOK, LoginMessage, k, user, now);
    }
  }

  /** GetUserDetail: the user the middleware put into the request context, as JSON. */
  function GetUserDetail(user: User): Response
  {
    JsonResponse(StatusOK, [], JUser(user))
  }

  /** Unlike Login's answer, the user-detail answer behind the middleware never carries a password hash. */
  lemma DetailNeverShowsHash(header: string, k: Keyring, now: int, users: map<int, User>, online: bool)
    requires Middleware.AuthMiddleware(header, k, now, users, online).Next?
    ensures GetUserDetail(Middleware.AuthMiddleware(header, k, now, users, online).user).body.value.user.passwordHash == ""
  {
  }

  /** GenerateAccessToken: a new access token for the refresh cookie's user; the cookie itself is left alone. */
  method GenerateAccessToken(db: DB, cookie: Option<string>, k: Keyring, now: int) returns (resp: Response)
    ensures cookie.None? ==> resp == HttpError("Unauthorized", StatusUnauthorized)
    ensures cookie.Some? && ValidateJWT(k, cookie.value, now).Err? ==> resp == HttpError("Invalid token", StatusUnauthorized)
    ensures cookie.Some? && ValidateJWT(k, cookie.value, now).Ok?
            && LookupUserById(db.users, db.online, ValidateJWT(k, cookie.value, now).value.userId).Err? ==>
              resp == HttpError("Invalid token", StatusUnauthorized)
    ensures resp.status == StatusOK <==>
              && cookie.Some? && ValidateJWT(k, cookie.value, now).Ok?
              && var user := LookupUserById(db.users, db.online, ValidateJWT(k, cookie.value, now).value.userId);
                 user.Ok? && GenerateJWT(k, user.value, now).Ok?
    ensures resp.status == StatusOK ==>
              var user := LookupUserById(db.users, db.online, ValidateJWT(k, cookie.value, now).value.userId).value;
              resp == JsonResponse(StatusOK, [], JAccessToken(LoginMessage, GenerateJWT(k, user, now).value))
    ensures resp.cookies == []
  {
    if cookie.None? {
      return HttpError("Unauthorized", StatusUnauthorized);
    }
    var claims := ValidateJWT(k, cookie.value, now);
    if claims.Err? {
      return HttpError("Invalid token", StatusUnauthorized);
    }
    var user := db.GetUserByID(claims.value.userId);
    if user.Err? {
      return HttpError("Invalid token", StatusUnauthorized);
    }
    var token := GenerateJWT(k, user.value, now);
    if token.Err? {
      return HttpError(TokenFailed, StatusInternalServerError);
    }
    resp := JsonResponse(StatusOK, [], JAccessToken(LoginMessage, token.value));
  }
}
