/**
 * back-end/internal/middleware/auth.go: the chain of checks in front of every protected
 * route. The user lookup is GetUserByID over the users table.
 */
module Middleware {
  import opened Wrappers
  import opened GoText
  import opened Models
  import opened Jwt
  import opened HttpModel
  import Database

  const HeaderRequired: string := "Authorization header required"
  const HeaderFormat: string := "Authorization header format must be: Bearer {token}"
  const InvalidToken: string := "Invalid token"

  /** The format check: strings.Split on single spaces must give exactly "Bearer" and one more part. */
  function BearerToken(header: string): Option<string>
  {
    var parts := Split(header, ' ');
    if |parts| != 2 || parts[0] != "Bearer" then None else Some(parts[1])
  }

  /** The header passes the format check with token t exactly when it is "Bearer " + t and t has no space. */
  lemma BearerTokenIff(header: string, t: string)
    ensures BearerToken(header) == Some(t) <==> header == "Bearer " + t && ' ' !in t
  {
    if BearerToken(header) == Some(t) {
      var parts := Split(header, ' ');
      JoinSplit(header, ' ');
      SplitPiecesHaveNoSeparator(header, ' ');
      assert parts == ["Bearer", t];
      assert Join(parts, ' ') == "Bearer" + [' '] + t;
      assert ' ' !in parts[1];
    }
    if header == "Bearer " + t && ' ' !in t {
      assert header == "Bearer" + [' '] + t;
      SplitAfterFirst("Bearer", ' ', t);
      SplitWithoutSeparator(t, ' ');
    }
  }

  /** "Bearer " with nothing after it passes the format check, with an empty token. */
  lemma EmptyTokenPassesFormat()
    ensures BearerToken("Bearer ") == Some("")
  {
    BearerTokenIff("Bearer ", "");
  }

  /** The scheme is compared case-sensitively: "bearer" is refused whatever follows it. */
  lemma SchemeIsCaseSensitive(t: string)
    ensures BearerToken("bearer " + t).None?
  {
    SplitFirstIsPrefix("bearer " + t, ' ');
    assert ("bearer " + t)[0] == 'b';
  }

  /** What the middleware does with a request: call the next handler with the user, or answer. */
  datatype Outcome = Next(user: User) | Reject(response: Response)

  /** AuthMiddleware, given the Authorization header (empty when absent), the secret, the clock and the users table. */
  function AuthMiddleware(header: string, k: Keyring, now: int, users: map<int, User>, online: bool): (o: Outcome)
    ensures header == "" ==> o == Reject(HttpError(HeaderRequired, StatusUnauthorized))
    ensures header != "" && BearerToken(header).None? ==> o == Reject(HttpError(HeaderFormat, StatusUnauthorized))
    ensures o.Reject? ==> o.response in {HttpError(HeaderRequired, StatusUnauthorized),
                                         HttpError(HeaderFormat, StatusUnauthorized),
                                         HttpError(InvalidToken, StatusUnauthorized)}
    ensures o.Next? ==> exists t | header == "Bearer " + t && ' ' !in t ::
                          && ValidateJWT(k, t, now).Ok?
                          && online
                          && ValidateJWT(k, t, now).value.userId in users
                          && o.user == Database.ByIdView(users[ValidateJWT(k, t, now).value.userId])
    ensures o.Next? ==> o.user.passwordHash == "" && o.user.thirdParty == ""
  {
    if header == "" then Reject(HttpError(HeaderRequired, StatusUnauthorized))
    else match BearerToken(header)
      case None => Reject(HttpError(HeaderFormat, StatusUnauthorized))
      case Some(t) =>
        match ValidateJWT(k, t, now)
        case Err(_) => Reject(HttpError(InvalidToken, StatusUnauthorized))
        case Ok(claims) =>
          match Database.LookupUserById(users, online, claims.userId)
          case Err(_) => Reject(HttpError(InvalidToken, StatusUnauthorized))
          case Ok(user) => BearerTokenIff(header, t); Next(user)
  }

  /** A well-formed header carrying a token that validates for an existing user always gets through. */
  lemma ValidTokenPasses(t: string, k: Keyring, now: int, users: map<int, User>)
    requires ' ' !in t && ValidateJWT(k, t, now).Ok?
    requires Database.InInt4(ValidateJWT(k, t, now).value.userId) && ValidateJWT(k, t, now).value.userId in users
    ensures AuthMiddleware("Bearer " + t, k, now, users, true) == Next(Database.ByIdView(users[ValidateJWT(k, t, now).value.userId]))
  {
    BearerTokenIff("Bearer " + t, t);
  }
}
